/** How a PDF reader splits a content stream into tokens (white space as in
    section 7.2.2, Table 1, of ISO 32000-1:2008), restricted to what the
    drawing helpers emit: words separated by white space.  This is the
    reading side against which the fragments built in module PikeDraw are
    checked. */
module ContentTokens {

  /** The six white-space characters of ISO 32000-1:2008, Table 1. */
  predicate IsWhite(c: char) {
    c == '\0' || c == '\t' || c == '\n' || c == '\U{000C}' || c == '\r' || c == ' '
  }

  /** A token: a non-empty run of non-white characters. */
  predicate IsWord(s: string) {
    |s| > 0 && forall i :: 0 <= i < |s| ==> !IsWhite(s[i])
  }

  /** Every character of `s` is white space. */
  predicate IsBlank(s: string) {
    forall i :: 0 <= i < |s| ==> IsWhite(s[i])
  }

  /** The content-stream operators the drawing helpers use, as ISO
      32000-1:2008 defines them: graphics state (section 8.4.4: q Q;
      Table 57: w J j d), path construction (section 8.5.2: m l re h), path
      painting (section 8.5.3: S f B) and colour (section 8.6.8: RG rg). */
  const DrawOperators: set<string> :=
    {"q", "Q", "m", "l", "re", "h", "w", "j", "J", "d", "RG", "rg", "S", "f", "B"}

  /** Membership in DrawOperators, decided from the length and the
      characters of the token (see OperatorMnemonics). */
  predicate IsOperator(t: string) {
    (|t| == 1 && t[0] in {'q', 'Q', 'm', 'l', 'h', 'w', 'j', 'J', 'd', 'S', 'f', 'B'}) ||
    (|t| == 2 && ((t[0] == 'r' && t[1] == 'e') || (t[0] == 'R' && t[1] == 'G') || (t[0] == 'r' && t[1] == 'g')))
  }

  /** IsOperator recognises exactly the mnemonics of DrawOperators. */
  lemma OperatorMnemonics(t: string)
    ensures IsOperator(t) <==> t in DrawOperators
  {
    if |t| == 1 {
      assert t == [t[0]];
    } else if |t| == 2 {
      assert t == [t[0], t[1]];
    }
  }

  /** Length of the leading run of non-white characters of `s`. */
  function WordLen(s: string): (n: nat)
    ensures n <= |s|
    ensures forall i :: 0 <= i < n ==> !IsWhite(s[i])
    ensures n < |s| ==> IsWhite(s[n])
  {
    if s == [] || IsWhite(s[0]) then 0 else 1 + WordLen(s[1..])
  }

  /** The tokens of `s`, in order, white space dropped. */
  function Tokenize(s: string): seq<string>
    decreases |s|
  {
    if s == [] then []
    else if IsWhite(s[0]) then Tokenize(s[1..])
    else
      var n := WordLen(s);
      [s[..n]] + Tokenize(s[n..])
  }

  /** The operators among `toks`, in order. */
  function OperatorsOf(toks: seq<string>): seq<string> {
    if toks == [] then []
    else (if IsOperator(toks[0]) then [toks[0]] else []) + OperatorsOf(toks[1..])
  }

  /** The stream handed to the page: an opening line break, then every line
      followed by a line break (the template's indentation is dropped, it
      is white space and changes no token). */
  function Render(lines: seq<string>): string {
    "\n" + Joined(lines)
  }

  function Joined(lines: seq<string>): string {
    if lines == [] then "" else lines[0] + "\n" + Joined(lines[1..])
  }

  /** The tokens of each line, concatenated in line order. */
  function LineTokens(lines: seq<string>): seq<string> {
    if lines == [] then [] else Tokenize(lines[0]) + LineTokens(lines[1..])
  }

  lemma {:induction false} TokenizeBlank(s: string)
    requires IsBlank(s)
    ensures Tokenize(s) == []
    decreases |s|
  {
    if s != [] {
      TokenizeBlank(s[1..]);
    }
  }

  lemma {:induction false} WordLenOfWord(w: string)
    requires IsWord(w)
    ensures WordLen(w) == |w|
    decreases |w|
  {
    if |w| > 1 {
      WordLenOfWord(w[1..]);
    }
  }

  /** A single word reads back as itself. */
  lemma TokenizeWord(w: string)
    requires IsWord(w)
    ensures Tokenize(w) == [w]
  {
    WordLenOfWord(w);
    assert !IsWhite(w[0]);
    assert w[..|w|] == w && w[|w|..] == [];
    assert Tokenize(w) == [w[..|w|]] + Tokenize(w[|w|..]);
  }

  /** Appending `b` does not change the first word of `a` when that word
      ends inside `a`, or when `b` starts with white space. */
  lemma {:induction false} WordLenAppend(a: string, b: string)
    requires WordLen(a) < |a| || b == [] || IsWhite(b[0])
    ensures WordLen(a + b) == WordLen(a)
    decreases |a|
  {
    if a == [] {
      assert b == [] || IsWhite((a + b)[0]);
    } else if !IsWhite(a[0]) {
      assert (a + b)[1..] == a[1..] + b;
      WordLenAppend(a[1..], b);
    }
  }

  /** Tokenizing distributes over concatenation at a white-space boundary. */
  lemma {:induction false} TokenizeAppend(a: string, b: string)
    requires a == [] || b == [] || IsWhite(a[|a| - 1]) || IsWhite(b[0])
    ensures Tokenize(a + b) == Tokenize(a) + Tokenize(b)
    decreases |a|
  {
    if a == [] {
      assert a + b == b;
    } else if IsWhite(a[0]) {
      assert (a + b)[1..] == a[1..] + b;
      TokenizeAppend(a[1..], b);
    } else {
      var n := WordLen(a);
      if n == |a| {
        assert IsWord(a);
        TokenizeWord(a);
        assert b == [] || IsWhite(b[0]);
      }
      WordLenAppend(a, b);
      assert (a + b)[..n] == a[..n];
      assert (a + b)[n..] == a[n..] + b;
      TokenizeAppend(a[n..], b);
    }
  }

  /** Reading the rendered stream gives the lines' tokens in line order. */
  lemma {:induction false} TokenizeRender(lines: seq<string>)
    ensures Tokenize(Render(lines)) == LineTokens(lines)
  {
    TokenizeBlank("\n");
    TokenizeAppend("\n", Joined(lines));
    TokenizeJoined(lines);
  }

  lemma {:induction false} TokenizeJoined(lines: seq<string>)
    ensures Tokenize(Joined(lines)) == LineTokens(lines)
  {
    if lines != [] {
      var line := lines[0] + "\n";
      var rest := Joined(lines[1..]);
      assert Joined(lines) == line + rest;
      LineBreak(lines[0]);
      TokenizeAppend(line, rest);
      TokenizeJoined(lines[1..]);
    }
  }

  /** A line break ends a line without adding a token. */
  lemma LineBreak(s: string)
    ensures IsWhite((s + "\n")[|s + "\n"| - 1])
    ensures Tokenize(s + "\n") == Tokenize(s)
  {
    assert IsBlank("\n");
    TokenizeBlank("\n");
    TokenizeAppend(s, "\n");
  }

  lemma {:induction false} OperatorsOfAppend(a: seq<string>, b: seq<string>)
    ensures OperatorsOf(a + b) == OperatorsOf(a) + OperatorsOf(b)
  {
    if a != [] {
      assert (a + b)[1..] == a[1..] + b;
      OperatorsOfAppend(a[1..], b);
    } else {
      assert a + b == b;
    }
  }

  /** One more line adds exactly that line's tokens at the end. */
  lemma {:induction false} LineTokensSnoc(lines: seq<string>, line: string)
    ensures LineTokens(lines + [line]) == LineTokens(lines) + Tokenize(line)
  {
    if lines == [] {
      assert lines + [line] == [line];
      assert [line][1..] == [];
    } else {
      assert (lines + [line])[1..] == lines[1..] + [line];
      LineTokensSnoc(lines[1..], line);
    }
  }

  lemma {:induction false} OperatorsOfNone(toks: seq<string>)
    requires forall k :: 0 <= k < |toks| ==> !IsOperator(toks[k])
    ensures OperatorsOf(toks) == []
  {
    if toks != [] {
      OperatorsOfNone(toks[1..]);
    }
  }

  lemma {:induction false} OperatorsOfAll(toks: seq<string>)
    requires forall k :: 0 <= k < |toks| ==> IsOperator(toks[k])
    ensures OperatorsOf(toks) == toks
  {
    if toks != [] {
      OperatorsOfAll(toks[1..]);
    }
  }
}
