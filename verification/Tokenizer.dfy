/** split: the two-position loop against a recursive tokenizer and against what tokens are. */
module Tokenizer {
  import opened Base

  /** Length of the longest prefix all in, or all not in, the delimiters. */
  function Span(s: string, delims: string, inside: bool): (n: nat)
    ensures n <= |s|
  {
    if s == [] || (s[0] in delims) != inside then 0 else 1 + Span(s[1..], delims, inside)
  }

  predicate AllIn(s: string, delims: string, inside: bool) {
    forall i :: 0 <= i < |s| ==> (s[i] in delims) == inside
  }

  lemma SpanFacts(s: string, delims: string, inside: bool)
    ensures var n := Span(s, delims, inside);
            AllIn(s[..n], delims, inside) && (n < |s| ==> (s[n] in delims) != inside)
  {
    if s != [] && (s[0] in delims) == inside {
      var n := Span(s[1..], delims, inside);
      SpanFacts(s[1..], delims, inside);
      assert s[..n + 1] == [s[0]] + s[1..][..n];
    }
  }

  function Tokens(s: string, delims: string): seq<string>
    decreases |s|
  {
    var t := s[Span(s, delims, true)..];
    if t == [] then []
    else
      var n := Span(t, delims, false);
      [t[..n]] + Tokens(t[n..], delims)
  }

  /** The first position from `pos` on that is (`inside`), or is not, a delimiter; None is npos. */
  function Seek(s: string, delims: string, pos: nat, inside: bool): Option<nat>
    requires pos <= |s|
  {
    var n := Span(s[pos..], delims, !inside);
    if pos + n == |s| then None else Some(pos + n)
  }

  /** find_first_of (`inside`) and find_first_not_of from `pos`; None is npos, for which the
      answer is npos again. */
  method Find(s: string, delims: string, pos: Option<nat>, inside: bool) returns (r: Option<nat>)
    ensures pos.None? || pos.value > |s| ==> r == None
    ensures r.Some? ==> r.value < |s|
    ensures pos.Some? && pos.value <= |s| ==> r == Seek(s, delims, pos.value, inside)
  {
    if pos.None? { return None; }
    var i := pos.value;
    while i < |s| && (s[i] in delims) != inside
      invariant pos.value <= |s| ==> pos.value <= i <= |s|
      invariant forall k :: pos.value <= k < i && k < |s| ==> (s[k] in delims) != inside
      decreases |s| - i
    {
      i := i + 1;
    }
    if pos.value <= |s| { SpanIs(s[pos.value..], delims, !inside, i - pos.value); }
    return if i < |s| then Some(i) else None;
  }

  lemma SpanIs(s: string, delims: string, inside: bool, n: nat)
    requires n <= |s| && (forall i :: 0 <= i < n ==> (s[i] in delims) == inside)
    requires n < |s| ==> (s[n] in delims) != inside
    ensures Span(s, delims, inside) == n
  {
    if n > 0 { SpanIs(s[1..], delims, inside, n - 1); }
  }

  lemma TokensHead(rest: string, delims: string)
    ensures var t := rest[Span(rest, delims, true)..];
            if t == [] then Tokens(rest, delims) == []
            else
              var n := Span(t, delims, false);
              n > 0 && Tokens(rest, delims) == [t[..n]] + Tokens(t[n..], delims)
  {
    SpanFacts(rest, delims, true);
  }

  lemma SliceAfter(s: string, from: nat, k: nat, n: nat)
    requires from + k + n <= |s|
    ensures s[from..][k..] == s[from + k..]
    ensures s[from + k..][..n] == s[from + k..from + k + n] && s[from + k..][n..] == s[from + k + n..]
  {
  }

  lemma TokenStep(s: string, delims: string, from: nat) returns (end: nat)
    requires from <= |s|
    ensures var start := Seek(s, delims, from, false);
            if start.None? then Tokens(s[from..], delims) == []
            else
              var found := Seek(s, delims, start.value, true);
              && end == (if found.Some? then found.value else |s|)
              && from <= start.value < end <= |s|
              && Tokens(s[from..], delims) == [s[start.value..end]] + Tokens(s[end..], delims)
  {
    hide Span, Tokens;
    TokensHead(s[from..], delims);
    var skip := Span(s[from..], delims, true);
    SliceAfter(s, from, skip, 0);
    var n := Span(s[from + skip..], delims, false);
    SliceAfter(s, from, skip, n);
    end := from + skip + n;
  }

  lemma SeekEnd(s: string, delims: string)
    ensures Seek(s, delims, |s|, false) == None
  {
  }

  method Split(s: string, delims: string) returns (tokens: seq<string>)
    ensures tokens == Tokens(s, delims)
  {
    hide *;
    tokens := [];
    var start := Find(s, delims, Some(0), false);
    var found := Find(s, delims, start, true);
    ghost var from := 0;  // everything before is in tokens
    assert s[0..] == s;
    while start.Some? || found.Some?
      invariant 0 <= from <= |s| && tokens + Tokens(s[from..], delims) == Tokens(s, delims)
      invariant start == Seek(s, delims, from, false) && (start.Some? ==> start.value <= |s|)
      invariant found == if start.None? then None else Seek(s, delims, start.value, true)
      decreases |s| - from
    {
      ghost var next := TokenStep(s, delims, from);
      var end := if found.Some? then found.value else |s|;  // substr clips the npos length
      assert tokens + ([s[start.value..end]] + Tokens(s[end..], delims))
          == (tokens + [s[start.value..end]]) + Tokens(s[end..], delims);
      tokens := tokens + [s[start.value..end]];
      from := end;
      SeekEnd(s, delims);
      start := Find(s, delims, found, false);
      found := Find(s, delims, start, true);
    }
    ghost var last := TokenStep(s, delims, from);
  }

  // ---- what the tokens are ----

  /** gaps[0] tokens[0] gaps[1] tokens[1] ... gaps[n] */
  function Weave(gaps: seq<string>, tokens: seq<string>): string
    requires |gaps| == |tokens| + 1
  {
    if tokens == [] then gaps[0] else gaps[0] + tokens[0] + Weave(gaps[1..], tokens[1..])
  }

  /** Non-empty delimiter-free tokens with delimiters around and at least one between them. */
  predicate Separated(gaps: seq<string>, tokens: seq<string>, delims: string) {
    && |gaps| == |tokens| + 1
    && (forall i :: 0 <= i < |tokens| ==> tokens[i] != [] && AllIn(tokens[i], delims, false))
    && (forall i :: 0 <= i < |gaps| ==> AllIn(gaps[i], delims, true))
    && (forall i :: 0 < i < |tokens| ==> gaps[i] != [])
  }

  lemma SpanPrefix(p: string, rest: string, delims: string, inside: bool)
    requires AllIn(p, delims, inside) && (rest != [] ==> (rest[0] in delims) != inside)
    ensures Span(p + rest, delims, inside) == |p|
  {
    SpanIs(p + rest, delims, inside, |p|);
  }

  /** Every cut of the string into separated tokens is the one Tokens finds ... */
  lemma {:induction false} TokensUnique(gaps: seq<string>, tokens: seq<string>, delims: string)
    requires Separated(gaps, tokens, delims)
    ensures Tokens(Weave(gaps, tokens), delims) == tokens
  {
    var s := Weave(gaps, tokens);
    if tokens == [] {
      SpanPrefix(s, [], delims, true);
      assert s + [] == s;
    } else {
      var more := Weave(gaps[1..], tokens[1..]);
      SpanPrefix(gaps[0], tokens[0] + more, delims, true);
      assert s == gaps[0] + (tokens[0] + more);
      WeaveStartsWithGap(gaps[1..], tokens[1..], delims);
      SpanPrefix(tokens[0], more, delims, false);
      TokensUnique(gaps[1..], tokens[1..], delims);
      assert s[|gaps[0]|..] == tokens[0] + more && (tokens[0] + more)[|tokens[0]|..] == more;
      assert [tokens[0]] + tokens[1..] == tokens;
    }
  }

  lemma WeaveStartsWithGap(gaps: seq<string>, tokens: seq<string>, delims: string)
    requires |gaps| == |tokens| + 1 && AllIn(gaps[0], delims, true) && (tokens != [] ==> gaps[0] != [])
    ensures Weave(gaps, tokens) != [] ==> Weave(gaps, tokens)[0] in delims
  {
  }

  /** One more token in front of a separation. */
  lemma SeparatedCons(gap: string, token: string, gaps: seq<string>, tokens: seq<string>, delims: string)
    requires Separated(gaps, tokens, delims) && AllIn(gap, delims, true)
    requires token != [] && AllIn(token, delims, false) && (tokens != [] ==> gaps[0] != [])
    ensures Separated([gap] + gaps, [token] + tokens, delims)
    ensures Weave([gap] + gaps, [token] + tokens) == gap + token + Weave(gaps, tokens)
  {
    assert ([gap] + gaps)[1..] == gaps && ([token] + tokens)[1..] == tokens;
    forall i | 0 < i < |tokens| + 1 ensures ([gap] + gaps)[i] != [] {
      assert ([gap] + gaps)[i] == gaps[i - 1];
    }
  }

  lemma OnlyGap(s: string, delims: string)
    requires Span(s, delims, true) == |s|
    ensures Separated([s], [], delims) && Weave([s], []) == s && Tokens(s, delims) == []
  {
    SpanFacts(s, delims, true);
    assert s[..|s|] == s;
  }

  lemma HeadParts(s: string, delims: string)
    requires Span(s, delims, true) < |s|
    ensures var skip := Span(s, delims, true);
            var t := s[skip..];
            var n := Span(t, delims, false);
            && AllIn(s[..skip], delims, true) && AllIn(t[..n], delims, false) && 0 < n
            && (n < |t| ==> t[n..] != [] && t[n..][0] in delims)
            && (s[0] in delims ==> s[..skip] != [])
            && s == s[..skip] + t[..n] + t[n..]
            && Tokens(s, delims) == [t[..n]] + Tokens(t[n..], delims)
  {
    hide Span, Tokens, AllIn;
    var skip := Span(s, delims, true);
    var t := s[skip..];
    SpanFacts(s, delims, true);
    SpanFacts(t, delims, false);
    TokensHead(s, delims);
    CutTwice(s, skip, Span(t, delims, false));
  }

  lemma CutTwice(s: string, k: nat, n: nat)
    requires k + n <= |s|
    ensures s == s[..k] + s[k..][..n] + s[k..][n..]
    ensures n < |s| - k ==> s[k..][n..] != [] && s[k..][n..][0] == s[k..][n]
    ensures k > 0 ==> s[..k] != []
  {
  }

  /** ... and Tokens finds one for every string: the tokens are the maximal delimiter-free runs, in
      order, and hold all characters that are not delimiters. */
  lemma {:induction false} TokensExist(s: string, delims: string) returns (gaps: seq<string>)
    ensures Separated(gaps, Tokens(s, delims), delims) && Weave(gaps, Tokens(s, delims)) == s
    ensures s != [] && s[0] in delims ==> gaps[0] != []
    decreases |s|
  {
    hide Tokens, Span, Separated, Weave, AllIn;
    var skip := Span(s, delims, true);
    if skip == |s| {
      OnlyGap(s, delims);
      gaps := [s];
    } else {
      HeadParts(s, delims);
      var t := s[skip..];
      var n := Span(t, delims, false);
      var more := TokensExist(t[n..], delims);
      assert |more| == |Tokens(t[n..], delims)| + 1 by { SeparatedSizes(more, Tokens(t[n..], delims), delims); }
      if n == |t| { assert t[n..] == []; NoTokens(delims); }
      SeparatedCons(s[..skip], t[..n], more, Tokens(t[n..], delims), delims);
      gaps := [s[..skip]] + more;
    }
  }

  lemma SeparatedSizes(gaps: seq<string>, tokens: seq<string>, delims: string)
    requires Separated(gaps, tokens, delims)
    ensures |gaps| == |tokens| + 1
  {
  }

  lemma NoTokens(delims: string)
    ensures Tokens([], delims) == []
  {
  }

  function Join(tokens: seq<string>, sep: string): string {
    if tokens == [] then "" else if |tokens| == 1 then tokens[0] else tokens[0] + sep + Join(tokens[1..], sep)
  }

  /** Round trip through a join with any non-empty separator of delimiters. */
  lemma {:induction false} JoinRoundTrip(tokens: seq<string>, sep: string, delims: string)
    requires sep != [] && AllIn(sep, delims, true)
    requires forall i :: 0 <= i < |tokens| ==> tokens[i] != [] && AllIn(tokens[i], delims, false)
    ensures Tokens(Join(tokens, sep), delims) == tokens
  {
    var gaps := seq(|tokens| + 1, i => if 0 < i < |tokens| then sep else "");
    JoinIsWeave(tokens, sep, gaps);
    assert "" + Join(tokens, sep) == Join(tokens, sep);
    TokensUnique(gaps, tokens, delims);
  }

  lemma JoinIsWeave(tokens: seq<string>, sep: string, gaps: seq<string>)
    requires |gaps| == |tokens| + 1 && gaps[|tokens|] == "" && forall i :: 0 < i < |tokens| ==> gaps[i] == sep
    ensures Weave(gaps, tokens) == if tokens == [] then "" else gaps[0] + Join(tokens, sep)
  {
    if |tokens| == 1 {
      assert Weave(gaps[1..], tokens[1..]) == "";
      assert gaps[0] + tokens[0] + "" == gaps[0] + tokens[0];
    } else if |tokens| > 1 {
      JoinIsWeave(tokens[1..], sep, gaps[1..]);
      Associate(gaps[0], tokens[0], sep, Join(tokens[1..], sep));
    }
  }

  lemma Associate(a: string, b: string, c: string, d: string)
    ensures a + b + (c + d) == a + (b + c + d)
  {
  }
}
