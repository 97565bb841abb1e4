/** `sanitizeImageUrl`: cleans an image URL taken from an untrusted payload.
    Straight-line string rewriting: trim, drop one trailing `)`, strip leading
    and trailing quote runs, then turn a protocol-relative `//host/...` into
    `https://host/...`. */
module ImageUrl {
  import opened Js

  /** The characters `String.prototype.trim` removes: ECMAScript WhiteSpace
      (tab, vertical tab, form feed, space, no-break space, byte order mark and
      the space separators of Unicode category Zs) and LineTerminator. */
  predicate IsTrimSpace(c: char) {
    c in {'\t', '\n', '\U{000B}', '\U{000C}', '\r', ' ', '\U{00A0}', '\U{1680}',
          '\U{2000}', '\U{2001}', '\U{2002}', '\U{2003}', '\U{2004}', '\U{2005}',
          '\U{2006}', '\U{2007}', '\U{2008}', '\U{2009}', '\U{200A}',
          '\U{2028}', '\U{2029}', '\U{202F}', '\U{205F}', '\U{3000}', '\U{FEFF}'}
  }

  /** The characters of the class `['"]`. */
  predicate IsQuote(c: char) {
    c == '\'' || c == '"'
  }

  /** `s.startsWith("//")`: a protocol-relative URL. */
  predicate IsProtocolRelative(s: string) {
    |s| >= 2 && s[0] == '/' && s[1] == '/'
  }

  /** Length of the longest prefix of `s` whose characters all satisfy `p`. */
  function LeadingRun(s: string, p: char -> bool): (n: nat)
    ensures n <= |s|
    ensures n < |s| ==> !p(s[n])
  {
    if s == [] || !p(s[0]) then 0 else 1 + LeadingRun(s[1..], p)
  }

  /** Length of the longest suffix of `s` whose characters all satisfy `p`. */
  function TrailingRun(s: string, p: char -> bool): (n: nat)
    ensures n <= |s|
    ensures n < |s| ==> !p(s[|s| - 1 - n])
  {
    if s == [] || !p(s[|s| - 1]) then 0 else 1 + TrailingRun(s[..|s| - 1], p)
  }

  /** Every position of the leading run satisfies `p`. */
  lemma {:induction false} LeadingRunIndices(s: string, p: char -> bool)
    ensures forall k | 0 <= k < LeadingRun(s, p) :: p(s[k])
    decreases |s|
  {
    if s != [] && p(s[0]) {
      LeadingRunIndices(s[1..], p);
      forall k | 1 <= k < LeadingRun(s, p)
        ensures p(s[k])
      {
        assert s[k] == s[1..][k - 1];
      }
    }
  }

  /** Every position of the trailing run satisfies `p`. */
  lemma {:induction false} TrailingRunIndices(s: string, p: char -> bool)
    ensures forall k | |s| - TrailingRun(s, p) <= k < |s| :: p(s[k])
    decreases |s|
  {
    if s != [] && p(s[|s| - 1]) {
      var s' := s[..|s| - 1];
      TrailingRunIndices(s', p);
      forall k | |s| - TrailingRun(s, p) <= k < |s| - 1
        ensures p(s[k])
      {
        assert s[k] == s'[k];
      }
    }
  }

  /** `s` without its longest prefix of characters satisfying `p`. */
  function DropLeading(s: string, p: char -> bool): string {
    s[LeadingRun(s, p)..]
  }

  /** `s` without its longest suffix of characters satisfying `p`. */
  function DropTrailing(s: string, p: char -> bool): string {
    s[..|s| - TrailingRun(s, p)]
  }

  /** `r` is the infix of `s` starting at `i`, and every character cut
      before or after it satisfies `p`. */
  predicate IsInfixCut(s: string, i: nat, r: string, p: char -> bool) {
    && i + |r| <= |s|
    && r == s[i..i + |r|]
    && (forall k | 0 <= k < i :: p(s[k]))
    && (forall k | i + |r| <= k < |s| :: p(s[k]))
  }

  /** Neither end of `r` satisfies `p`. */
  predicate ClearEnds(r: string, p: char -> bool) {
    r != [] ==> !p(r[0]) && !p(r[|r| - 1])
  }

  /** What dropping both runs of `p` leaves neither starts nor ends with a
      character satisfying `p`. */
  lemma DropBothEnds(s: string, p: char -> bool)
    ensures ClearEnds(DropTrailing(DropLeading(s, p), p), p)
  {
    var a, b := DropBothSpan(s, p);
    var r := DropTrailing(DropLeading(s, p), p);
    if r != [] {
      var t := s[a..];
      assert r[0] == s[a];
      assert r[|r| - 1] == t[|t| - 1 - TrailingRun(t, p)];
    }
  }

  /** What dropping both runs of `p` leaves is an infix of `s`, and
      everything cut on either side satisfies `p`. */
  lemma DropBothCuts(s: string, p: char -> bool)
    ensures exists i: nat :: IsInfixCut(s, i, DropTrailing(DropLeading(s, p), p), p)
  {
    var a, b := DropBothSpan(s, p);
    DropBothNoise(s, p, a, b);
    assert IsInfixCut(s, a, DropTrailing(DropLeading(s, p), p), p);
  }

  /** `s.trim()`: drops the whitespace runs at both ends. */
  function Trim(s: string): string
  {
    DropTrailing(DropLeading(s, IsTrimSpace), IsTrimSpace)
  }

  /** Trimming leaves an infix of `s` that neither starts nor ends with
      whitespace, and cuts only whitespace on either side. */
  lemma TrimCutsOnlySpace(s: string)
    ensures ClearEnds(Trim(s), IsTrimSpace)
    ensures exists i: nat :: IsInfixCut(s, i, Trim(s), IsTrimSpace)
  {
    DropBothEnds(s, IsTrimSpace);
    DropBothCuts(s, IsTrimSpace);
  }

  /** `if (u.endsWith(")")) u = u.slice(0, -1)`: exactly one `)` is cut when
      the string ends with one, and nothing otherwise. */
  function DropOneParen(s: string): (r: string)
    ensures |r| <= |s| <= |r| + 1 && r == s[..|r|]
    ensures |r| < |s| <==> s != [] && s[|s| - 1] == ')'
  {
    if s != [] && s[|s| - 1] == ')' then
      s[..|s| - 1]
    else s
  }

  /** `u.replace(/^['"]+|['"]+$/g, "")`: the global replace removes the
      run of quotes at the start and the run at the end. */
  function StripQuotes(s: string): string
  {
    DropTrailing(DropLeading(s, IsQuote), IsQuote)
  }

  /** Stripping quotes leaves an infix of `s` that neither starts nor ends
      with a quote, and cuts only quotes on either side. */
  lemma StripQuotesCutsOnlyQuotes(s: string)
    ensures ClearEnds(StripQuotes(s), IsQuote)
    ensures exists i: nat :: IsInfixCut(s, i, StripQuotes(s), IsQuote)
  {
    DropBothEnds(s, IsQuote);
    DropBothCuts(s, IsQuote);
  }

  /** `if (u.startsWith("//")) u = "https:" + u`: the result is never
      protocol-relative, and differs from the input exactly when the input
      was, by the `https:` prefix. */
  function ForceHttps(s: string): (r: string)
    ensures !IsProtocolRelative(r)
    ensures r == s <==> !IsProtocolRelative(s)
    ensures r != s ==> r == "https:" + s
  {
    if IsProtocolRelative(s) then
      assert ("https:" + s)[0] == 'h';
      "https:" + s
    else s
  }

  /** The sanitiser on a string argument. The result never starts with `//`
      and never starts or ends with a quote; it may be empty. */
  function SanitizeString(s: string): (r: string)
    ensures !IsProtocolRelative(r)
    ensures r != [] ==> !IsQuote(r[0]) && !IsQuote(r[|r| - 1])
  {
    var u := DropOneParen(Trim(s));
    DropBothEnds(u, IsQuote);
    ForceHttpsEnds(StripQuotes(u));
    ForceHttps(StripQuotes(u))
  }

  /** The `https:` prefix leaves a string that is not protocol-relative, and
      keeps the last character and the absence of a leading quote. */
  lemma ForceHttpsEnds(q: string)
    ensures !IsProtocolRelative(ForceHttps(q))
    ensures q != [] && !IsQuote(q[0]) ==> !IsQuote(ForceHttps(q)[0])
    ensures q != [] ==> ForceHttps(q)[|ForceHttps(q)| - 1] == q[|q| - 1]
    ensures q == [] ==> ForceHttps(q) == []
  {
    if IsProtocolRelative(q) {
      var r := "https:" + q;
      assert r[0] == 'h' && r[|r| - 1] == q[|q| - 1];
    }
  }

  /** `sanitizeImageUrl(url)`: undefined exactly when `url` is not a string;
      otherwise always a string, possibly the empty one. */
  function SanitizeImageUrl(url: Json): (r: Json)
    ensures r == Undefined <==> !url.Str?
    ensures url.Str? ==> r.Str? && r.s == SanitizeString(url.s)
  {
    if url.Str? then Str(SanitizeString(url.s)) else Undefined
  }

  lemma SliceOfSlice(s: string, a: nat, c: nat, x: nat, y: nat)
    requires a <= c <= |s| && x <= y <= c - a
    ensures s[a..c][x..y] == s[a + x..a + y]
  {
    assert forall k | 0 <= k < y - x :: s[a..c][x..y][k] == s[a + x + k];
  }

  /** Dropping both runs of `p` leaves the span `s[a..b]`. */
  lemma DropBothSpan(s: string, p: char -> bool) returns (a: nat, b: nat)
    ensures a == LeadingRun(s, p) && a <= |s| && b == |s| - TrailingRun(s[a..], p)
    ensures a <= b <= |s| && DropTrailing(DropLeading(s, p), p) == s[a..b]
  {
    a := LeadingRun(s, p);
    b := |s| - TrailingRun(s[a..], p);
    SliceOfSlice(s, a, |s|, 0, b - a);
  }

  /** What dropping both runs of `p` removes satisfies `p`. */
  lemma DropBothNoise(s: string, p: char -> bool, a: nat, b: nat)
    requires a == LeadingRun(s, p) && a <= |s| && b == |s| - TrailingRun(s[a..], p)
    ensures forall k | 0 <= k < a :: p(s[k])
    ensures forall k | b <= k < |s| :: p(s[k])
  {
    LeadingRunIndices(s, p);
    TrailingRunIndices(s[a..], p);
    SuffixIndices(s, a, TrailingRun(s[a..], p), p);
  }

  /** A property of the last `n` positions of `s[a..]` holds of the last `n`
      positions of `s`. */
  lemma SuffixIndices(s: string, a: nat, n: nat, p: char -> bool)
    requires a <= |s| && n <= |s| - a
    requires forall k | |s| - a - n <= k < |s| - a :: p(s[a..][k])
    ensures forall k | |s| - n <= k < |s| :: p(s[k])
  {
    forall k | |s| - n <= k < |s|
      ensures p(s[k])
    {
      assert s[k] == s[a..][k - a];
    }
  }

  /** The `)` check keeps `s[a..c]` of `s[a..b]`, cutting at most one `)`. */
  lemma ParenCut(s: string, a: nat, b: nat) returns (c: nat)
    requires a <= b <= |s|
    ensures a <= c <= b <= c + 1 && DropOneParen(s[a..b]) == s[a..c]
    ensures c < b ==> s[c] == ')'
  {
    c := if b > a && s[b - 1] == ')' then b - 1 else b;
    SliceOfSlice(s, a, b, 0, c - a);
  }

  /** Dropping both runs of `p` from `s[a..c]` keeps `s[i..j]`. */
  lemma InnerCut(s: string, a: nat, c: nat, p: char -> bool) returns (i: nat, j: nat)
    requires a <= c <= |s|
    ensures i == a + LeadingRun(s[a..c], p)
    ensures j == c - TrailingRun(s[a..c][i - a..], p)
    ensures a <= i <= j <= c && DropTrailing(DropLeading(s[a..c], p), p) == s[i..j]
  {
    var u := s[a..c];
    var x, y := DropBothSpan(u, p);
    i, j := a + x, a + y;
    SliceOfSlice(s, a, c, x, y);
  }

  /** What dropping both runs of `p` cuts from `s[a..c]` satisfies `p`. */
  lemma InnerNoise(s: string, a: nat, c: nat, i: nat, j: nat, p: char -> bool)
    requires a <= c <= |s|
    requires i == a + LeadingRun(s[a..c], p)
    requires j == c - TrailingRun(s[a..c][i - a..], p)
    ensures forall k | a <= k < i :: p(s[k])
    ensures forall k | j <= k < c :: p(s[k])
  {
    var u := s[a..c];
    DropBothNoise(u, p, i - a, j - a);
    forall k | a <= k < i
      ensures p(s[k])
    {
      assert s[k] == u[k - a];
    }
    forall k | j <= k < c
      ensures p(s[k])
    {
      assert s[k] == u[k - a];
    }
  }

  /** The cut points of the sanitiser: trimming leaves `s[a..b]`, the `)`
      check leaves `s[a..c]`, quote stripping leaves `s[i..j]`. */
  lemma SanitizeCuts(s: string) returns (a: nat, i: nat, j: nat, c: nat, b: nat)
    ensures a <= i <= j <= c <= b <= |s| && b <= c + 1
    ensures SanitizeString(s) == ForceHttps(s[i..j])
    ensures forall k | 0 <= k < a :: IsTrimSpace(s[k])
    ensures forall k | a <= k < i :: IsQuote(s[k])
    ensures forall k | j <= k < c :: IsQuote(s[k])
    ensures c < b ==> s[c] == ')'
    ensures forall k | b <= k < |s| :: IsTrimSpace(s[k])
  {
    a, b := DropBothSpan(s, IsTrimSpace);
    DropBothNoise(s, IsTrimSpace, a, b);
    c := ParenCut(s, a, b);
    i, j := InnerCut(s, a, c, IsQuote);
    InnerNoise(s, a, c, i, j, IsQuote);
  }

  /** After `j` there are only characters of `q` up to `c`, at most the one
      character `x` at `c`, and characters of `p` from `b` on; as neither
      predicate admits `x`, that `x` occurs at most once after `j`. */
  lemma TailNoise(s: string, j: nat, c: nat, b: nat, p: char -> bool, q: char -> bool, x: char)
    requires j <= c <= b <= |s| && b <= c + 1
    requires forall k | j <= k < c :: q(s[k])
    requires c < b ==> s[c] == x
    requires forall k | b <= k < |s| :: p(s[k])
    requires !p(x) && !q(x)
    ensures forall k | j <= k < |s| :: p(s[k]) || q(s[k]) || s[k] == x
    ensures forall k, l | j <= k < l < |s| && s[k] == x :: s[l] != x
  {
  }

  /** What the sanitiser removes is noise at the two ends of its input: the
      result is a contiguous span of `s`, with `https:` in front exactly when
      that span is protocol-relative; before the span there are only
      whitespace and quotes, after it only whitespace, quotes and at most one
      `)`. */
  lemma SanitizeKeepsInnerSpan(s: string)
    ensures exists i: nat, j: nat | i <= j <= |s| ::
      && SanitizeString(s) == ForceHttps(s[i..j])
      && (forall k | 0 <= k < i :: IsTrimSpace(s[k]) || IsQuote(s[k]))
      && (forall k | j <= k < |s| :: IsTrimSpace(s[k]) || IsQuote(s[k]) || s[k] == ')')
      && (forall k, l | j <= k < l < |s| && s[k] == ')' :: s[l] != ')')
  {
    var a, i, j, c, b := SanitizeCuts(s);
    assert !IsTrimSpace(')') && !IsQuote(')');
    TailNoise(s, j, c, b, IsTrimSpace, IsQuote, ')');
  }

  /** A URL with no noise at either end is returned unchanged, or with
      `https:` in front when it is protocol-relative. */
  lemma SanitizeKeepsCleanUrl(s: string)
    requires s != []
    requires !IsTrimSpace(s[0]) && !IsQuote(s[0])
    requires !IsTrimSpace(s[|s| - 1]) && !IsQuote(s[|s| - 1]) && s[|s| - 1] != ')'
    ensures SanitizeString(s) == if IsProtocolRelative(s) then "https:" + s else s
  {
    assert DropLeading(s, IsTrimSpace) == s;
    assert DropTrailing(s, IsTrimSpace) == s;
    assert DropOneParen(s) == s;
    assert DropLeading(s, IsQuote) == s;
    assert DropTrailing(s, IsQuote) == s;
  }

  /** A single `)` after an otherwise clean URL is dropped, and only that
      one: whatever ends `u`, including a `)` of its own, is kept. */
  lemma SanitizeDropsOneTrailingParen(u: string)
    requires u != []
    requires !IsTrimSpace(u[0]) && !IsQuote(u[0]) && !IsQuote(u[|u| - 1])
    ensures SanitizeString(u + ")") == ForceHttps(u)
  {
    var s := u + ")";
    assert s[0] == u[0] && s[|s| - 1] == ')';
    assert DropLeading(s, IsTrimSpace) == s;
    assert DropTrailing(s, IsTrimSpace) == s;
    assert DropOneParen(s) == u;
    assert DropLeading(u, IsQuote) == u;
    assert DropTrailing(u, IsQuote) == u;
  }

  /** One leading quote before a non-quote is dropped, and only it. */
  lemma DropOneLeadingQuote(u: string)
    requires u != [] && !IsQuote(u[0])
    ensures DropLeading("\"" + u + "\"", IsQuote) == u + "\""
  {
    var s := "\"" + u + "\"";
    assert s[1..] == u + "\"";
    assert s[1..][0] == u[0];
    assert LeadingRun(s[1..], IsQuote) == 0;
  }

  /** One trailing quote after a non-quote is dropped, and only it. */
  lemma DropOneTrailingQuote(u: string)
    requires u != [] && !IsQuote(u[|u| - 1])
    ensures DropTrailing(u + "\"", IsQuote) == u
  {
    var v := u + "\"";
    assert |v[..|v| - 1]| == |u|;
    assert forall k | 0 <= k < |u| :: v[..|v| - 1][k] == u[k];
    assert v[..|v| - 1] == u;
    assert TrailingRun(v[..|v| - 1], IsQuote) == 0;
  }

  /** A `)` inside quotes is not at the end when the `)` check runs, so it
      survives; the quotes around it are stripped afterwards. */
  lemma SanitizeKeepsParenInsideQuotes(u: string)
    requires u != []
    requires !IsTrimSpace(u[0]) && !IsQuote(u[0]) && !IsQuote(u[|u| - 1])
    ensures SanitizeString("\"" + u + "\"") == ForceHttps(u)
  {
    var s := "\"" + u + "\"";
    assert s[0] == '"' && s[|s| - 1] == '"';
    assert DropLeading(s, IsTrimSpace) == s;
    assert DropTrailing(s, IsTrimSpace) == s;
    assert DropOneParen(s) == s;
    DropOneLeadingQuote(u);
    DropOneTrailingQuote(u);
  }

  lemma ForceHttpsOnCdnExample()
    ensures ForceHttps("//cdn.example.com/img.png") == "https://cdn.example.com/img.png"
  {
    assert IsProtocolRelative("//cdn.example.com/img.png");
  }

  /** Worked case: a protocol-relative URL with a stray `)` captured after it. */
  lemma SanitizeProtocolRelativeWithParen()
    ensures SanitizeString("//cdn.example.com/img.png)") == "https://cdn.example.com/img.png"
  {
    var u := "//cdn.example.com/img.png";
    assert "//cdn.example.com/img.png)" == u + ")";
    SanitizeDropsOneTrailingParen(u);
    ForceHttpsOnCdnExample();
  }

  /** Worked case: the quoted `"a)"` keeps its `)`. */
  lemma SanitizeQuotedParenExample()
    ensures SanitizeString("\"a)\"") == "a)"
  {
    assert "\"a)\"" == "\"" + "a)" + "\"";
    SanitizeKeepsParenInsideQuotes("a)");
  }
}
