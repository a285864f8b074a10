/** Splitting a layout text into tokens: the four punctuation characters and the leaf texts between them. */
module Tokenizer {
  import opened Text

  predicate IsPunctuation(c: char) { c == '(' || c == ')' || c == ';' || c == ',' }

  /** The buffered leaf text as a token, unless it is blank. */
  function Flush(buf: string): seq<string> {
    if Trim(buf) == [] then [] else [Trim(buf)]
  }

  /** A `(` after some leaf text swallows everything up to the next `)` of the line into the leaf. */
  predicate OpensLeafGroup(line: string, buf: string) {
    line != [] && line[0] == '(' && Trim(buf) != [] && ')' in line[1..]
  }

  /** The tokens of the rest of one line, with `buf` the leaf text read so far. */
  function ScanLine(line: string, buf: string): seq<string>
    decreases |line|
  {
    if line == [] then Flush(buf)
    else if OpensLeafGroup(line, buf) then
      var k := FirstIndex(line[1..], ')');
      ScanLine(line[k + 2..], buf + line[..k + 2])
    else if IsPunctuation(line[0]) then Flush(buf) + [[line[0]]] + ScanLine(line[1..], "")
    else ScanLine(line[1..], buf + [line[0]])
  }

  function ScanLines(lines: seq<string>): seq<string> {
    if lines == [] then [] else ScanLine(StripComment(lines[0]), "") + ScanLines(lines[1..])
  }

  /** All tokens of a text. */
  function Tokens(text: string): seq<string> { ScanLines(Lines(text)) }

  lemma {:induction false} ScanLinesAppend(a: seq<string>, line: string)
    ensures ScanLines(a + [line]) == ScanLines(a) + ScanLine(StripComment(line), "")
  {
    if a == [] {
      assert [] + [line] == [line];
      assert [line][1..] == [];
    } else {
      assert (a + [line])[1..] == a[1..] + [line];
      ScanLinesAppend(a[1..], line);
    }
  }

  /** One step of the scanner, on the text from `index` on. */
  lemma ScanStep(line: string, index: nat, buf: string)
    requires index < |line|
    ensures var rest := line[index..];
            var close := FirstIndex(rest[1..], ')');
            && (OpensLeafGroup(rest, buf) <==> rest[0] == '(' && Trim(buf) != [] && close < |rest[1..]|)
            && ScanLine(rest, buf) ==
               if OpensLeafGroup(rest, buf) then
                 ScanLine(line[index + close + 2..], buf + line[index..index + close + 2])
               else if IsPunctuation(line[index]) then (Flush(buf) + [[line[index]]]) + ScanLine(line[index + 1..], "")
               else ScanLine(line[index + 1..], buf + [line[index]])
  {
    hide Trim, Flush;
    var rest := line[index..];
    var close := FirstIndex(rest[1..], ')');
    assert rest[1..] == line[index + 1..];
    assert close == |rest[1..]| ==> rest[1..][..close] == rest[1..];
    if close < |rest[1..]| {
      assert rest[close + 2..] == line[index + close + 2..];
      assert rest[..close + 2] == line[index..index + close + 2];
    }
  }

  /** The scanner as written: two nested loops over `tokens`, `buf` and `index`. */
  method Tokenize(text: string) returns (tokens: seq<string>)
    ensures tokens == Tokens(text)
  {
    hide Trim, Flush, IsPunctuation, ScanLine, StripComment, OpensLeafGroup;
    tokens := [];
    var lines := Lines(text);
    for n := 0 to |lines|
      invariant tokens == ScanLines(lines[..n])
    {
      var line := StripComment(lines[n]);
      ghost var all := tokens + ScanLine(line, "");
      var index, buf := 0, "";
      assert line[0..] == line;
      while index < |line|
        invariant index <= |line|
        invariant tokens + ScanLine(line[index..], buf) == all
        decreases |line| - index
      {
        ScanStep(line, index, buf);
        var rest := line[index..];
        var close := FirstIndex(rest[1..], ')');
        if rest[0] == '(' && Trim(buf) != [] && close < |rest[1..]| {
          buf := buf + line[index..index + close + 2];
          index := index + close + 2;
        } else if IsPunctuation(line[index]) {
          Associate(tokens, Flush(buf) + [[line[index]]], ScanLine(line[index + 1..], ""));
          tokens := tokens + (Flush(buf) + [[line[index]]]);
          buf := "";
          index := index + 1;
        } else {
          buf := buf + [line[index]];
          index := index + 1;
        }
      }
      ScanNothing(line[index..], buf);
      tokens := tokens + Flush(buf);
      assert lines[..n + 1] == lines[..n] + [lines[n]];
      ScanLinesAppend(lines[..n], lines[n]);
    }
    assert lines[..|lines|] == lines;
  }

  lemma ScanNothing(line: string, buf: string)
    requires line == []
    ensures ScanLine(line, buf) == Flush(buf)
  {}

  /** No token is blank, and none carries white space at its ends. */
  lemma {:induction false} TokensAreTrimmed(line: string, buf: string)
    ensures forall t :: t in ScanLine(line, buf) ==> t != [] && Trimmed(t)
    decreases |line|
  {
    hide Trim, Trimmed, IsPunctuation;
    TrimIsTrimmed(buf);
    if line == [] {
    } else if OpensLeafGroup(line, buf) {
      var k := FirstIndex(line[1..], ')');
      TokensAreTrimmed(line[k + 2..], buf + line[..k + 2]);
    } else if IsPunctuation(line[0]) {
      PunctuationIsTrimmed(line[0]);
      TokensAreTrimmed(line[1..], "");
    } else {
      TokensAreTrimmed(line[1..], buf + [line[0]]);
    }
  }

  lemma PunctuationIsTrimmed(c: char)
    requires IsPunctuation(c)
    ensures Trimmed([c])
  {}

  // ---- Nothing is lost ----

  /** A text without its white space. */
  function Squash(s: string): string {
    if s == [] then [] else (if IsSpace(s[0]) then [] else [s[0]]) + Squash(s[1..])
  }

  function Flatten(tokens: seq<string>): string {
    if tokens == [] then [] else tokens[0] + Flatten(tokens[1..])
  }

  lemma {:induction false} SquashAppend(a: string, b: string)
    ensures Squash(a + b) == Squash(a) + Squash(b)
  {
    hide IsSpace;
    if a == [] {
      assert a + b == b;
    } else {
      ConcatTail(a, b);
      SquashAppend(a[1..], b);
      Associate(if IsSpace(a[0]) then [] else [a[0]], Squash(a[1..]), Squash(b));
    }
  }

  lemma {:induction false} SquashTrimStart(s: string)
    ensures Squash(TrimStart(s)) == Squash(s)
  {
    hide IsSpace;
    if s != [] && IsSpace(s[0]) { SquashTrimStart(s[1..]); }
  }

  lemma {:induction false} SquashTrimEnd(s: string)
    ensures Squash(TrimEnd(s)) == Squash(s)
  {
    hide IsSpace;
    if s != [] && IsSpace(s[|s| - 1]) {
      var init, last := s[..|s| - 1], [s[|s| - 1]];
      SquashTrimEnd(init);
      assert s == init + last && last[1..] == [];
      SquashAppend(init, last);
    }
  }

  lemma SquashTrim(s: string)
    ensures Squash(Trim(s)) == Squash(s)
  {
    hide IsSpace, Squash, TrimStart, TrimEnd;
    SquashTrimStart(s);
    SquashTrimEnd(TrimStart(s));
  }

  lemma {:induction false} FlattenAppend(a: seq<string>, b: seq<string>)
    ensures Flatten(a + b) == Flatten(a) + Flatten(b)
  {
    if a == [] {
      assert a + b == b;
    } else {
      ConcatTail(a, b);
      FlattenAppend(a[1..], b);
      Associate(a[0], Flatten(a[1..]), Flatten(b));
    }
  }

  lemma SquashFlush(buf: string)
    ensures Squash(Flatten(Flush(buf))) == Squash(buf)
  {
    hide Trim;
    SquashTrim(buf);
    var t := Trim(buf);
    assert [t][1..] == [] && Flatten([]) == [] && t + [] == t;
    assert Flatten([t]) == t + Flatten([t][1..]);
  }

  /** White space aside, the tokens of a line are the line: no character is lost, added or moved. */
  lemma {:induction false} ScanConserves(line: string, buf: string)
    ensures Squash(Flatten(ScanLine(line, buf))) == Squash(buf) + Squash(line)
    decreases |line|
  {
    hide Trim, Flush, IsPunctuation, Squash, Flatten;
    SquashFlush(buf);
    if line == [] {
      SquashNothing();
      assert Squash(buf) + [] == Squash(buf);
    } else if OpensLeafGroup(line, buf) {
      var k := FirstIndex(line[1..], ')') + 2;
      ScanConserves(line[k..], buf + line[..k]);
      SquashAppend(buf, line[..k]);
      assert line == line[..k] + line[k..];
      SquashAppend(line[..k], line[k..]);
      Associate(Squash(buf), Squash(line[..k]), Squash(line[k..]));
    } else {
      var head, tail := line[..1], line[1..];
      assert line == head + tail && head == [line[0]];
      SquashAppend(head, tail);
      if IsPunctuation(line[0]) {
        ScanConserves(tail, "");
        SquashNothing();
        FlattenSplit(Flush(buf), head, ScanLine(tail, ""));
        SquashAppend(Flatten(Flush(buf)), head + Flatten(ScanLine(tail, "")));
        SquashAppend(head, Flatten(ScanLine(tail, "")));
        assert [] + Squash(tail) == Squash(tail);
      } else {
        ScanConserves(tail, buf + head);
        SquashAppend(buf, head);
        Associate(Squash(buf), Squash(head), Squash(tail));
      }
    }
  }

  lemma SquashNothing()
    ensures Squash("") == ""
  {}

  lemma FlattenSplit(a: seq<string>, mark: string, b: seq<string>)
    ensures Flatten(a + [mark] + b) == Flatten(a) + (mark + Flatten(b))
  {
    assert a + [mark] + b == a + ([mark] + b);
    FlattenAppend(a, [mark] + b);
    assert ([mark] + b)[1..] == b;
  }

  // ---- Texts of several lines ----

  /** Every line is scanned, on its own. */
  lemma TokensOfLines(a: string, b: string)
    requires '\n' !in a && (a == [] || a[|a| - 1] != '\r')
    ensures Tokens(a + ['\n'] + b) == Tokens(a) + Tokens(b)
    ensures Tokens(a + ['\r', '\n'] + b) == Tokens(a) + Tokens(b)
  {
    hide Lines, ScanLine, StripComment;
    LinesGoOn(a, b);
    LastLine(a);
    OneMoreLine(a, Lines(b));
    assert [a][1..] == [] && ScanLines([]) == [];
    if a == [] {
      BlankLine();
    }
  }

  lemma OneMoreLine(line: string, rest: seq<string>)
    ensures ScanLines([line] + rest) == ScanLine(StripComment(line), "") + ScanLines(rest)
  {
    hide ScanLine, StripComment;
    assert ([line] + rest)[1..] == rest;
  }

  lemma BlankLine()
    ensures ScanLine(StripComment(""), "") == []
  {
    CommentIsCut("");
    ScanNothing("", "");
    FlushNothing();
  }

  /** A comment at the end of a text yields no tokens. */
  lemma CommentsHaveNoTokens(a: string, comment: string)
    requires '\n' !in a && '\n' !in comment
    ensures Tokens(a + ['#'] + comment) == Tokens(a)
    ensures a == [] || a[|a| - 1] != '/' ==> Tokens(a + ['/', '/'] + comment) == Tokens(a)
  {
    hide Lines, ScanLine, StripComment;
    CommentsAreIgnored(a, comment);
    LastLine(a);
    LastLine(a + ['#'] + comment);
    LastLine(a + ['/', '/'] + comment);
    OneMoreLine(a, []);
    OneMoreLine(a + ['#'] + comment, []);
    OneMoreLine(a + ['/', '/'] + comment, []);
    assert forall line: string :: [line] + [] == [line];
    assert ScanLines([]) == [];
    if a == [] { BlankLine(); }
  }

  // ---- Scanning rendered text ----

  predicate Plain(s: string) { forall i :: 0 <= i < |s| ==> !IsPunctuation(s[i]) }

  /** Characters other than punctuation move into the buffer. */
  lemma {:induction false} ScanPlain(s: string, rest: string, buf: string)
    requires Plain(s)
    ensures ScanLine(s + rest, buf) == ScanLine(rest, buf + s)
  {
    if s == [] {
      assert s + rest == rest;
      assert buf + s == buf;
    } else {
      assert (s + rest)[1..] == s[1..] + rest;
      assert buf + [s[0]] + s[1..] == buf + s;
      ScanPlain(s[1..], rest, buf + [s[0]]);
    }
  }

  /** A parenthesised group that follows leaf text moves into the buffer as a whole. */
  lemma ScanGroup(inner: string, group: string, rest: string, buf: string)
    requires group == "(" + inner + ")" && ')' !in inner && Trim(buf) != []
    ensures ScanLine(group + rest, buf) == ScanLine(rest, buf + group)
  {
    hide Trim, Flush;
    var line := group + rest;
    assert line[1..] == inner + [')'] + rest;
    FirstIndexAt(inner, ')', rest);
    assert line[1..][|inner|] == ')';
    assert line[|inner| + 2..] == rest;
    assert line[..|inner| + 2] == group;
  }

  /** What may follow a rendered layout: nothing, a separator or a closing parenthesis. */
  predicate EndsNode(rest: string) { rest == [] || rest[0] == ')' || rest[0] == ';' || rest[0] == ',' }

  lemma ScanEnd(rest: string, buf: string)
    requires EndsNode(rest)
    ensures ScanLine(rest, buf) == Flush(buf) + ScanLine(rest, "")
  {
    hide Flush, Trim;
    FlushNothing();
    if rest != [] {
      assert !OpensLeafGroup(rest, buf) && !OpensLeafGroup(rest, "") && IsPunctuation(rest[0]);
      var mark, tail := [[rest[0]]], ScanLine(rest[1..], "");
      assert Flush(buf) + mark + tail == Flush(buf) + (mark + tail);
      assert [] + mark + tail == mark + tail;
    }
  }

  lemma FlushNothing()
    ensures Flush("") == []
  {
    TrimIsTrimmed("");
  }

  lemma ScanPunctuation(c: char, rest: string, pad: string)
    requires AllSpace(pad) && IsPunctuation(c)
    ensures ScanLine([c] + rest, pad) == [[c]] + ScanLine(rest, "")
  {
    hide Trim, IsSpace, IsPunctuation;
    TrimIsTrimmed(pad);
    assert ([c] + rest)[1..] == rest;
  }
}
