/** Strings as sequences of characters: options, trimming, line splitting, character classes and decimal numbers. */
module Text {
  datatype Option<+T> = None | Some(value: T)

  type U32 = n: nat | n < 0x1_0000_0000

  /** The characters of Unicode property White_Space, which `char::is_whitespace` and the regex class `\s` share. */
  predicate IsSpace(c: char) {
    var n := c as int;
    9 <= n <= 13 || n == 32 || n == 0x85 || n == 0xA0 || n == 0x1680 || 0x2000 <= n <= 0x200A
    || n == 0x2028 || n == 0x2029 || n == 0x202F || n == 0x205F || n == 0x3000
  }

  predicate IsAlpha(c: char) { 'a' <= c <= 'z' || 'A' <= c <= 'Z' }

  predicate IsDigit(c: char) { '0' <= c <= '9' }

  predicate AllSpace(s: string) { forall i :: 0 <= i < |s| ==> IsSpace(s[i]) }

  /** The 25 characters, by their code points. */
  lemma SpacesExactly(c: char)
    ensures IsSpace(c) <==> c as int in SPACES
  {}

  const SPACES: set<int> :=
    {0x09, 0x0A, 0x0B, 0x0C, 0x0D, 0x20, 0x85, 0xA0, 0x1680, 0x2000, 0x2001, 0x2002, 0x2003, 0x2004, 0x2005, 0x2006,
     0x2007, 0x2008, 0x2009, 0x200A, 0x2028, 0x2029, 0x202F, 0x205F, 0x3000}

  function TrimStart(s: string): (r: string)
    ensures |r| <= |s| && r == s[|s| - |r|..] && AllSpace(s[..|s| - |r|])
    ensures r != [] ==> !IsSpace(r[0])
  {
    if s != [] && IsSpace(s[0]) then
      var r := TrimStart(s[1..]);
      assert s[..|s| - |r|] == [s[0]] + s[1..][..|s| - 1 - |r|];
      r
    else s
  }

  function TrimEnd(s: string): (r: string)
    ensures |r| <= |s| && r == s[..|r|] && AllSpace(s[|r|..])
    ensures r != [] ==> !IsSpace(r[|r| - 1])
  {
    if s != [] && IsSpace(s[|s| - 1]) then
      var r := TrimEnd(s[..|s| - 1]);
      assert s[|r|..] == s[..|s| - 1][|r|..] + [s[|s| - 1]];
      r
    else s
  }

  /** `str::trim`. */
  function Trim(s: string): string { TrimEnd(TrimStart(s)) }

  /** `s` neither starts nor ends with white space. */
  predicate Trimmed(s: string) { s != [] ==> !IsSpace(s[0]) && !IsSpace(s[|s| - 1]) }

  lemma TrimIsTrimmed(s: string)
    ensures Trimmed(Trim(s))
    ensures Trim(s) == [] <==> AllSpace(s)
  {
    hide IsSpace;
    var a := TrimStart(s);
    TrimEndKeepsStart(a);
    assert a == [] ==> s[..|s|] == s;
    assert a != [] ==> a[0] == s[|s| - |a|];
  }

  lemma TrimEndKeepsStart(a: string)
    requires a != [] ==> !IsSpace(a[0])
    ensures Trimmed(TrimEnd(a)) && (TrimEnd(a) == [] <==> a == [])
  {
    hide IsSpace;
    var b := TrimEnd(a);
    if b == [] { assert a[|b|..] == a; }
  }

  /** Leading white space disappears, a body trimmed at both ends stays. */
  lemma TrimPadded(pad: string, body: string)
    requires AllSpace(pad) && Trimmed(body)
    ensures Trim(pad + body) == body
  {
    if pad == [] {
      assert pad + body == body;
    } else {
      assert (pad + body)[0] == pad[0];
      assert (pad + body)[1..] == pad[1..] + body;
      TrimPadded(pad[1..], body);
    }
  }

  // ---- Positions, lines and comments ----

  /** The index of the first `c`, or `|s|`. */
  function FirstIndex(s: string, c: char): (k: nat)
    ensures k <= |s| && c !in s[..k] && (k < |s| ==> s[k] == c)
  {
    if s == [] || s[0] == c then 0
    else
      var k := FirstIndex(s[1..], c) + 1;
      assert s[..k] == [s[0]] + s[1..][..k - 1];
      k
  }

  lemma FirstIndexAt(a: string, c: char, b: string)
    requires c !in a
    ensures FirstIndex(a + [c] + b, c) == |a|
  {
    if a != [] {
      FirstIndexAt(a[1..], c, b);
      assert (a + [c] + b)[1..] == a[1..] + [c] + b;
    }
  }

  /** `"\r\n"` ends a line too. */
  function ChopReturn(line: string): string {
    if line != [] && line[|line| - 1] == '\r' then line[..|line| - 1] else line
  }

  /** `str::lines`. */
  function Lines(s: string): seq<string> {
    var k := FirstIndex(s, '\n');
    if s == [] then []
    else if k == |s| then [s]
    else [ChopReturn(s[..k])] + Lines(s[k + 1..])
  }

  /** The text before the first `//`. */
  function BeforeSlashes(s: string): string {
    if s == [] then []
    else if |s| >= 2 && s[0] == '/' && s[1] == '/' then []
    else [s[0]] + BeforeSlashes(s[1..])
  }

  /** The part of a line that is not comment: up to the first `#`, then up to the first `//`. */
  function StripComment(line: string): string {
    BeforeSlashes(line[..FirstIndex(line, '#')])
  }

  lemma NoSlashNoComment(s: string)
    requires '/' !in s
    ensures BeforeSlashes(s) == s
  {
    if s != [] { NoSlashNoComment(s[1..]); }
  }

  /** Lines end at line feeds, with or without a carriage return before; after a line the text goes on. */
  lemma LinesGoOn(a: string, b: string)
    requires '\n' !in a
    ensures a == [] || a[|a| - 1] != '\r' ==> Lines(a + ['\n'] + b) == [a] + Lines(b)
    ensures Lines(a + ['\r', '\n'] + b) == [a] + Lines(b)
  {
    hide Lines;
    LineEndsAt(a, b);
    LineEndsAt(a + ['\r'], b);
    assert a + ['\r', '\n'] + b == (a + ['\r']) + ['\n'] + b;
    ReturnIsChopped(a);
  }

  lemma ReturnIsChopped(a: string)
    ensures ChopReturn(a + ['\r']) == a
    ensures a == [] || a[|a| - 1] != '\r' ==> ChopReturn(a) == a
  {
    assert (a + ['\r'])[..|a|] == a;
  }

  lemma LineEndsAt(a: string, b: string)
    requires '\n' !in a
    ensures Lines(a + ['\n'] + b) == [ChopReturn(a)] + Lines(b)
  {
    var s := a + ['\n'] + b;
    FirstIndexAt(a, '\n', b);
    assert s[..|a|] == a && s[|a| + 1..] == b;
  }

  /** The last line needs no line feed. */
  lemma LastLine(a: string)
    requires '\n' !in a
    ensures Lines(a) == if a == [] then [] else [a]
  {
    assert a[..|a|] == a;
    assert FirstIndex(a, '\n') == |a|;
  }

  predicate CommentAt(line: string, k: nat)
    requires k < |line|
  {
    line[k] == '#' || (line[k] == '/' && k + 1 < |line| && line[k + 1] == '/')
  }

  /** What is left of a line is all that stands before its first comment mark, `#` or `//`. */
  lemma CommentIsCut(line: string)
    ensures var r := StripComment(line);
      && r <= line && (forall k :: 0 <= k < |r| ==> !CommentAt(line, k))
      && (|r| < |line| ==> CommentAt(line, |r|))
  {
    var k := FirstIndex(line, '#');
    SlashesAreCut(line[..k]);
    var r := StripComment(line);
    assert r <= line[..k] <= line;
    forall i | 0 <= i < |r| ensures !CommentAt(line, i) {
      assert line[..k][i] == line[i];
      if i + 1 < k { assert line[..k][i + 1] == line[i + 1]; }
    }
    if |r| < k {
      assert line[..k][|r|] == line[|r|] && line[..k][|r| + 1] == line[|r| + 1];
    }
  }

  lemma {:induction false} SlashesAreCut(s: string)
    ensures var r := BeforeSlashes(s);
      && r <= s && (forall k :: 0 <= k < |r| ==> !(s[k] == '/' && k + 1 < |s| && s[k + 1] == '/'))
      && (|r| < |s| ==> |r| + 1 < |s| && s[|r|] == '/' && s[|r| + 1] == '/')
  {
    if s != [] && !(|s| >= 2 && s[0] == '/' && s[1] == '/') {
      var r, t := BeforeSlashes(s), s[1..];
      SlashesAreCut(t);
      assert r == [s[0]] + BeforeSlashes(t) && s == [s[0]] + t;
      forall k | 0 <= k < |r| ensures !(s[k] == '/' && k + 1 < |s| && s[k + 1] == '/') {
        if k > 0 { assert s[k] == t[k - 1]; }
      }
    }
  }

  /** So a comment changes nothing: neither one begun by `#` nor one begun by `//` that no slash precedes. */
  lemma CommentsAreIgnored(line: string, comment: string)
    ensures StripComment(line + ['#'] + comment) == StripComment(line)
    ensures line == [] || line[|line| - 1] != '/' ==> StripComment(line + ['/', '/'] + comment) == StripComment(line)
  {
    CommentIsCut(line);
    StripIsUnique(line, line + ['#'] + comment);
    StripIsUnique(line, line + ['/', '/'] + comment);
  }

  lemma StripIsUnique(line: string, more: string)
    requires |line| < |more| && more[..|line|] == line && CommentAt(more, |line|)
    ensures more[|line|] == '#' || line == [] || line[|line| - 1] != '/' ==> StripComment(more) == StripComment(line)
  {
    CommentIsCut(line);
    CommentIsCut(more);
    if more[|line|] == '#' || line == [] || line[|line| - 1] != '/' {
      var r, q := StripComment(line), StripComment(more);
      assert forall k :: 0 <= k < |line| ==> more[k] == line[k];
      assert forall k :: 0 <= k < |line| ==> (CommentAt(more, k) <==> CommentAt(line, k));
      assert |q| <= |line|;
      assert |q| == |r|;
      assert r == line[..|r|] == more[..|r|] == q;
    }
  }

  /** A text with no line feed and no comment character is one line, unchanged by comment stripping. */
  lemma PlainTextIsOneLine(s: string)
    requires '\n' !in s && '#' !in s && '/' !in s
    ensures Lines(s) == if s == [] then [] else [s]
    ensures StripComment(s) == s
  {
    NoSlashNoComment(s);
    assert s[..|s|] == s;
    assert FirstIndex(s, '\n') == |s|;
  }

  // ---- Character classes and runs ----

  datatype CharClass = Space | NameChar | ProviderChar | Digit

  predicate InClass(cl: CharClass, c: char) {
    match cl
    case Space => IsSpace(c)
    case NameChar => IsAlpha(c) || IsDigit(c) || c == '_' || c == '.' || c == '-'
    case ProviderChar => IsAlpha(c) || IsDigit(c) || c == '_' || c == '-'
    case Digit => IsDigit(c)
  }

  /** The classes, by their characters. */
  lemma ClassesExactly(c: char)
    ensures InClass(Digit, c) <==> 48 <= c as int < 58
    ensures InClass(ProviderChar, c) <==>
              'a' <= c <= 'z' || 'A' <= c <= 'Z' || 48 <= c as int < 58 || c as int == 95 || c as int == 45
    ensures InClass(NameChar, c) <==> InClass(ProviderChar, c) || c as int == 46
    ensures IsAlpha(c) <==> 65 <= c as int < 91 || 97 <= c as int < 123
  {}

  predicate AllIn(cl: CharClass, s: string) { forall i :: 0 <= i < |s| ==> InClass(cl, s[i]) }

  /** The length of the longest prefix of `s` inside the class. */
  function Span(cl: CharClass, s: string): (n: nat)
    ensures n <= |s| && AllIn(cl, s[..n]) && (n < |s| ==> !InClass(cl, s[n]))
  {
    if s != [] && InClass(cl, s[0]) then
      var n := Span(cl, s[1..]) + 1;
      assert s[..n] == [s[0]] + s[1..][..n - 1];
      n
    else 0
  }

  predicate StopsClass(cl: CharClass, s: string) { s == [] || !InClass(cl, s[0]) }

  lemma {:induction false} SpanOf(cl: CharClass, a: string, b: string)
    requires AllIn(cl, a) && StopsClass(cl, b)
    ensures Span(cl, a + b) == |a|
    ensures (a + b)[..|a|] == a && (a + b)[|a|..] == b
  {
    hide InClass;
    if a == [] {
      assert a + b == b;
    } else {
      ConcatTail(a, b);
      SpanOf(cl, a[1..], b);
    }
  }

  lemma Associate<T>(a: seq<T>, b: seq<T>, c: seq<T>)
    ensures a + (b + c) == (a + b) + c
  {}

  lemma ConcatTail<T>(a: seq<T>, b: seq<T>)
    requires a != []
    ensures (a + b)[0] == a[0] && (a + b)[1..] == a[1..] + b
  {}

  function SkipSpace(s: string): (r: string) { s[Span(Space, s)..] }

  lemma SkipSpaceOf(a: string, b: string)
    requires AllSpace(a) && StopsClass(Space, b)
    ensures SkipSpace(a + b) == b
  {
    assert AllIn(Space, a);
    SpanOf(Space, a, b);
  }

  // ---- Decimal numbers ----

  function ShowDigit(d: nat): (c: char)
    requires d < 10
    ensures IsDigit(c) && c as int == '0' as int + d
  {
    '0' + d as char
  }

  function ShowNat(n: nat): (s: string)
    ensures s != [] && AllIn(Digit, s)
  {
    if n < 10 then [ShowDigit(n)] else ShowNat(n / 10) + [ShowDigit(n % 10)]
  }

  function ReadNat(s: string): nat
    requires AllIn(Digit, s)
  {
    if s == [] then 0
    else 10 * ReadNat(s[..|s| - 1]) + (s[|s| - 1] as int - '0' as int)
  }

  lemma {:induction false} ReadShowNat(n: nat)
    ensures ReadNat(ShowNat(n)) == n
  {
    var s := ShowNat(n);
    if n < 10 {
      assert s[..|s| - 1] == [];
    } else {
      assert s[..|s| - 1] == ShowNat(n / 10);
      ReadShowNat(n / 10);
    }
  }
}
