/** The C string routines the pattern loaders rely on, as functions on
    strings: `strtok` with a one-character delimiter, the way `fgets`
    cuts a file into lines, and the trailing-newline strip both loaders
    apply to every token. */
module Text {

  /** Index of the first `c` in `s`, or `|s|` when there is none. */
  function IndexOf(s: string, c: char): (i: nat)
    ensures i <= |s|
    ensures forall k :: 0 <= k < i ==> s[k] != c
    ensures i < |s| ==> s[i] == c
  {
    if s == [] then 0
    else if s[0] == c then 0
    else 1 + IndexOf(s[1..], c)
  }

  /** Any index with no `c` before it, holding `c` or at the end, is the
      one `IndexOf` finds. */
  lemma {:induction false} IndexOfIs(s: string, c: char, i: nat)
    requires i <= |s|
    requires forall k :: 0 <= k < i ==> s[k] != c
    requires i < |s| ==> s[i] == c
    ensures IndexOf(s, c) == i
    decreases |s|
  {
    if s != [] && s[0] != c {
      IndexOfIs(s[1..], c, i - 1);
    }
  }

  /** `s` with every `d` taken out. */
  function Without(s: string, d: char): string
  {
    if s == [] then []
    else (if s[0] == d then [] else [s[0]]) + Without(s[1..], d)
  }

  /** The strings of `ts` written one after another. */
  function Concat(ts: seq<string>): string
  {
    if ts == [] then [] else ts[0] + Concat(ts[1..])
  }

  /** The tokens `strtok(s, d)` returns one call after another: the maximal
      runs of characters other than `d`; runs of delimiters yield nothing. */
  function Tokens(s: string, d: char): (ts: seq<string>)
    ensures forall k :: 0 <= k < |ts| ==> ts[k] != [] && d !in ts[k]
    decreases |s|
  {
    if s == [] then []
    else if s[0] == d then Tokens(s[1..], d)
    else
      var n := IndexOf(s, d);
      [s[..n]] + Tokens(s[n..], d)
  }

  lemma WithoutAppend(a: string, b: string, d: char)
    ensures Without(a + b, d) == Without(a, d) + Without(b, d)
  {
    if a == [] {
      assert a + b == b;
    } else {
      assert (a + b)[1..] == a[1..] + b;
      WithoutAppend(a[1..], b, d);
    }
  }

  lemma WithoutNone(s: string, d: char)
    requires d !in s
    ensures Without(s, d) == s
  {
    if s != [] {
      WithoutNone(s[1..], d);
    }
  }

  /** Tokenizing loses exactly the delimiters: the tokens, put back
      together, are the input with its delimiters removed. */
  lemma {:induction false} TokensKeepText(s: string, d: char)
    ensures Concat(Tokens(s, d)) == Without(s, d)
    decreases |s|
  {
    if s == [] {
    } else if s[0] == d {
      TokensKeepText(s[1..], d);
    } else {
      var n := IndexOf(s, d);
      assert s == s[..n] + s[n..];
      WithoutAppend(s[..n], s[n..], d);
      WithoutNone(s[..n], d);
      TokensKeepText(s[n..], d);
      assert Tokens(s, d)[1..] == Tokens(s[n..], d);
    }
  }

  /** The lines `fgets` hands out one after another: each runs up to and
      including a newline; a last line without a newline is still a line. */
  function Lines(text: string): (ls: seq<string>)
    ensures forall k :: 0 <= k < |ls| ==> ls[k] != []
    decreases |text|
  {
    if text == [] then []
    else
      var n := IndexOf(text, '\n');
      if n == |text| then [text]
      else [text[..n + 1]] + Lines(text[n + 1..])
  }

  /** Cutting into lines loses nothing. */
  lemma {:induction false} LinesKeepText(text: string)
    ensures Concat(Lines(text)) == text
    decreases |text|
  {
    if text != [] {
      var n := IndexOf(text, '\n');
      if n < |text| {
        var ls := Lines(text);
        assert ls == [text[..n + 1]] + Lines(text[n + 1..]);
        assert ls[0] == text[..n + 1];
        assert ls[1..] == Lines(text[n + 1..]);
        LinesKeepText(text[n + 1..]);
        assert Concat(ls) == text[..n + 1] + text[n + 1..];
        assert text == text[..n + 1] + text[n + 1..];
      }
    }
  }

  /** There are as many lines as newlines, plus one for an unterminated
      last line. */
  lemma {:induction false} LinesCount(text: string)
    ensures |Lines(text)| == multiset(text)['\n'] + (if text != [] && text[|text| - 1] != '\n' then 1 else 0)
    decreases |text|
  {
    if text != [] {
      var n := IndexOf(text, '\n');
      if n < |text| {
        var rest := text[n + 1..];
        NewlinesAfterFirst(text, n);
        LinesCount(rest);
        assert rest != [] ==> text[|text| - 1] == rest[|rest| - 1];
      } else {
        NoNewlines(text);
      }
    }
  }

  /** A string without a newline counts none. */
  lemma NoNewlines(s: string)
    requires forall k :: 0 <= k < |s| ==> s[k] != '\n'
    ensures multiset(s)['\n'] == 0
  {
    assert '\n' !in s;
  }

  /** Cutting a text after its first newline, at `n`, leaves one newline
      fewer in the rest and one line fewer. */
  lemma NewlinesAfterFirst(text: string, n: nat)
    requires n < |text| && text[n] == '\n' && forall k :: 0 <= k < n ==> text[k] != '\n'
    requires n == IndexOf(text, '\n')
    ensures multiset(text)['\n'] == 1 + multiset(text[n + 1..])['\n']
    ensures |Lines(text)| == 1 + |Lines(text[n + 1..])|
  {
    NoNewlines(text[..n]);
    assert text == text[..n] + [text[n]] + text[n + 1..];
    assert multiset(text) == multiset(text[..n]) + multiset([text[n]]) + multiset(text[n + 1..]);
  }

  /** A word followed by the delimiter is the first token, and the
      tokens of the rest follow it. */
  lemma WordThenDelimiter(w: string, rest: string, d: char)
    requires w != [] && d !in w
    ensures Tokens(w + [d] + rest, d) == [w] + Tokens(rest, d)
  {
    var s := w + [d] + rest;
    IndexOfIs(s, d, |w|);
    assert s[..|w|] == w && s[|w|..] == [d] + rest && s[|w|..][1..] == rest;
  }

  /** What both loaders do to each token: drop one trailing newline. */
  function StripNewline(t: string): (r: string)
    ensures r == t || (t != [] && t[|t| - 1] == '\n' && r == t[..|t| - 1])
    ensures |r| < |t| <==> (t != [] && t[|t| - 1] == '\n')
  {
    if t != [] && t[|t| - 1] == '\n' then t[..|t| - 1] else t
  }

  function StripAll(ts: seq<string>): (rs: seq<string>)
    ensures |rs| == |ts|
    ensures forall k :: 0 <= k < |ts| ==> rs[k] == StripNewline(ts[k])
  {
    seq(|ts|, k requires 0 <= k < |ts| => StripNewline(ts[k]))
  }

  /** The tokens of one `fgets` line split on `d`, trailing newline dropped. */
  function LineTokens(line: string, d: char): seq<string>
  {
    StripAll(Tokens(line, d))
  }
}
