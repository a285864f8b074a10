/** Leaf tokens: the regular expression for `name:provider(worktree)@N`, and the scanner that decides it. */
module LeafToken {
  import opened Text
  import opened Layout

  /** The captures of the regular expression; `digits` is the text after `@`. */
  datatype Captures = Captures(name: string, provider: Option<string>, mode: Option<string>, digits: Option<string>)

  // ---- The regular expression, part by part ----

  predicate IsName(s: string) { 1 <= |s| <= 64 && IsAlpha(s[0]) && AllIn(NameChar, s) }

  /** A pane name has 1 to 64 characters: a letter, then letters, digits, `_`, `.` and `-`. */
  lemma NameExactly(s: string)
    ensures IsName(s) <==>
      && 0 < |s| < 65 && ('a' <= s[0] <= 'z' || 'A' <= s[0] <= 'Z')
      && forall i :: 0 <= i < |s| ==>
           || 'a' <= s[i] <= 'z' || 'A' <= s[i] <= 'Z' || '0' <= s[i] <= '9'
           || s[i] == '_' || s[i] == '.' || s[i] == '-'
  {}

  predicate IsProvider(s: string) { s != [] && AllIn(ProviderChar, s) }

  predicate IsDigits(s: string) { s != [] && AllIn(Digit, s) }

  predicate ModeShape(s: string, a: string, b: string, m: string, c: string) {
    AllSpace(a) && AllSpace(b) && AllSpace(c) && s == a + ("(" + (b + (m + (c + ")"))))
  }

  predicate ProviderShape(s: string, a: string, b: string, p: string, tail: string) {
    AllSpace(a) && AllSpace(b) && s == a + (":" + (b + (p + tail)))
  }

  predicate PercentShape(s: string, a: string, b: string, d: string) {
    AllSpace(a) && AllSpace(b) && s == a + ("@" + (b + d))
  }

  /** `(?:\s*\(\s*(worktree)\s*\))?` */
  ghost predicate MatchesMode(s: string, mode: Option<string>) {
    if mode.None? then s == [] else mode.value == "worktree" && exists a, b, c :: ModeShape(s, a, b, mode.value, c)
  }

  /** `(?:\s*:\s*(provider)` mode `)?` */
  ghost predicate MatchesProvider(s: string, provider: Option<string>, mode: Option<string>) {
    if provider.None? then s == [] && mode == None
    else
      && IsProvider(provider.value)
      && exists a, b, tail :: ProviderShape(s, a, b, provider.value, tail) && MatchesMode(tail, mode)
  }

  /** `(?:\s*@\s*(\d+))?` */
  ghost predicate MatchesPercent(s: string, digits: Option<string>) {
    if digits.None? then s == [] else IsDigits(digits.value) && exists a, b :: PercentShape(s, a, b, digits.value)
  }

  predicate LeafShape(t: string, name: string, s: string, u: string) { t == name + (s + u) }

  /** The whole expression, anchored at both ends. */
  ghost predicate Matches(t: string, c: Captures) {
    IsName(c.name) &&
    exists s, u :: LeafShape(t, c.name, s, u) && MatchesProvider(s, c.provider, c.mode) && MatchesPercent(u, c.digits)
  }

  // ---- The scanner ----

  function ScanPercent(s: string): (r: Option<Option<string>>) {
    if s == [] then Some(None)
    else
      var r := SkipSpace(s);
      if r == [] || r[0] != '@' then None
      else
        var d := SkipSpace(r[1..]);
        if IsDigits(d) then Some(Some(d)) else None
  }

  /** The optional mode, and what follows it. `None` when a parenthesis opens anything but the mode. */
  function ScanMode(s: string): Option<(Option<string>, string)> {
    var r := SkipSpace(s);
    if r == [] || r[0] != '(' then Some((None, s))
    else
      var m := SkipSpace(r[1..]);
      if |m| < 8 || m[..8] != "worktree" then None
      else
        var e := SkipSpace(m[8..]);
        if e == [] || e[0] != ')' then None else Some((Some("worktree"), e[1..]))
  }

  function ScanProvider(s: string): Option<(Option<string>, Option<string>, string)> {
    var r := SkipSpace(s);
    if r == [] || r[0] != ':' then Some((None, None, s))
    else
      var p := SkipSpace(r[1..]);
      var k := Span(ProviderChar, p);
      if k == 0 then None
      else
        match ScanMode(p[k..])
        case None => None
        case Some((mode, rest)) => Some((Some(p[..k]), mode, rest))
  }

  function Capture(t: string): Option<Captures> {
    var k := Span(NameChar, t);
    if k == 0 || k > 64 || !IsAlpha(t[0]) then None
    else
      match ScanProvider(t[k..])
      case None => None
      case Some((provider, mode, rest)) =>
        match ScanPercent(rest)
        case None => None
        case Some(digits) => Some(Captures(t[..k], provider, mode, digits))
  }

  // ---- The scanner decides the expression ----

  lemma SkipSpaceSplits(s: string) returns (pad: string)
    ensures AllSpace(pad) && s == pad + SkipSpace(s) && StopsClass(Space, SkipSpace(s))
  {
    pad := s[..Span(Space, s)];
    assert AllIn(Space, pad);
  }

  lemma MarksAreNotSpace()
    ensures !IsSpace('(') && !IsSpace(')') && !IsSpace(':') && !IsSpace('@') && !IsSpace('w')
  {}

  /** Spaces before one of the three marks are skipped, and the text up to the mark stops a name and a provider. */
  lemma SkipSpaceTo(pad: string, mark: string, rest: string)
    requires AllSpace(pad) && (mark == "(" || mark == ":" || mark == "@")
    ensures SkipSpace(pad + (mark + rest)) == mark + rest
    ensures (mark + rest)[1..] == rest
    ensures StopsClass(NameChar, pad + (mark + rest)) && StopsClass(ProviderChar, pad + (mark + rest))
  {
    SkipSpaceOf(pad, mark + rest);
    assert pad == [] ==> (pad + (mark + rest))[0] == mark[0];
    assert pad != [] ==> (pad + (mark + rest))[0] == pad[0];
  }

  lemma PercentSound(s: string)
    requires ScanPercent(s).Some?
    ensures MatchesPercent(s, ScanPercent(s).value)
  {
    hide IsSpace, AllSpace, AllIn;
    if s != [] {
      var a := SkipSpaceSplits(s);
      var r := SkipSpace(s);
      var b := SkipSpaceSplits(r[1..]);
      assert r == "@" + r[1..];
      assert PercentShape(s, a, b, SkipSpace(r[1..]));
    }
  }

  lemma PercentComplete(s: string, digits: Option<string>)
    requires MatchesPercent(s, digits)
    ensures ScanPercent(s) == Some(digits)
  {
    hide SkipSpace, Span, AllSpace;
    MarksAreNotSpace();
    if digits.Some? {
      var d := digits.value;
      var a, b :| PercentShape(s, a, b, d);
      SkipSpaceTo(a, "@", b + d);
      SkipSpaceOf(b, d);
    }
  }

  /** What a mode or a provider is followed by starts, spaces aside, with `@`, if it is not empty. */
  lemma PercentOpens(s: string, digits: Option<string>)
    requires MatchesPercent(s, digits)
    ensures s != [] ==> SkipSpace(s) != [] && SkipSpace(s)[0] == '@'
    ensures StopsClass(NameChar, s) && StopsClass(ProviderChar, s)
  {
    MarksAreNotSpace();
    if digits.Some? {
      var a, b :| PercentShape(s, a, b, digits.value);
      SkipSpaceTo(a, "@", b + digits.value);
    }
  }

  lemma ModeSound(s: string) returns (head: string)
    requires ScanMode(s).Some?
    ensures s == head + ScanMode(s).value.1 && MatchesMode(head, ScanMode(s).value.0)
  {
    hide IsSpace, AllSpace, AllIn, SkipSpace, StopsClass;
    var r := SkipSpace(s);
    if r == [] || r[0] != '(' {
      head := [];
    } else {
      var a := SkipSpaceSplits(s);
      var b := SkipSpaceSplits(r[1..]);
      var m := SkipSpace(r[1..]);
      var c := SkipSpaceSplits(m[8..]);
      var e := SkipSpace(m[8..]);
      var rest := e[1..];
      assert r == "(" + r[1..] && m == "worktree" + m[8..] && e == ")" + rest;
      Associate(c, ")", rest);
      Associate("worktree", c + ")", rest);
      Associate(b, "worktree" + (c + ")"), rest);
      Associate("(", b + ("worktree" + (c + ")")), rest);
      head := a + ("(" + (b + ("worktree" + (c + ")"))));
      Associate(a, "(" + (b + ("worktree" + (c + ")"))), rest);
      assert ModeShape(head, a, b, "worktree", c);
    }
  }

  lemma ModeComplete(head: string, mode: Option<string>, tail: string, digits: Option<string>)
    requires MatchesMode(head, mode) && MatchesPercent(tail, digits)
    ensures ScanMode(head + tail) == Some((mode, tail))
    ensures StopsClass(ProviderChar, head + tail)
  {
    PercentOpens(tail, digits);
    if mode.None? {
      assert head + tail == tail;
    } else {
      var a, b, c :| ModeShape(head, a, b, mode.value, c);
      ModeScanned(a, b, c, tail);
    }
  }

  lemma ModeScanned(a: string, b: string, c: string, tail: string)
    requires AllSpace(a) && AllSpace(b) && AllSpace(c)
    ensures var s := a + ("(" + (b + ("worktree" + (c + ")")))) + tail;
            ScanMode(s) == Some((Some("worktree"), tail)) && StopsClass(ProviderChar, s)
  {
    hide IsSpace, AllSpace, AllIn, SkipSpace, StopsClass;
    var e := ")" + tail;
    var m := "worktree" + (c + e);
    Associate(c, ")", tail);
    Associate("worktree", c + ")", tail);
    Associate(b, "worktree" + (c + ")"), tail);
    Associate("(", b + ("worktree" + (c + ")")), tail);
    Associate(a, "(" + (b + ("worktree" + (c + ")"))), tail);
    SkipSpaceTo(a, "(", b + m);
    assert m[..8] == "worktree" && m[8..] == c + e && e[1..] == tail;
    SkipSpaceAt(b, m);
    SkipSpaceAt(c, e);
  }

  lemma SkipSpaceAt(pad: string, s: string)
    requires AllSpace(pad) && s != [] && (s[0] == 'w' || s[0] == ')')
    ensures SkipSpace(pad + s) == s
  {
    SkipSpaceOf(pad, s);
  }

  lemma ProviderSound(s: string) returns (head: string)
    requires ScanProvider(s).Some?
    ensures var (provider, mode, rest) := ScanProvider(s).value;
            s == head + rest && MatchesProvider(head, provider, mode)
  {
    hide IsSpace, AllSpace, AllIn, SkipSpace, StopsClass, MatchesMode, ScanMode;
    var r := SkipSpace(s);
    if r == [] || r[0] != ':' {
      head := [];
    } else {
      var a := SkipSpaceSplits(s);
      var b := SkipSpaceSplits(r[1..]);
      var p := SkipSpace(r[1..]);
      var k := Span(ProviderChar, p);
      var tail := ModeSound(p[k..]);
      var rest := ScanProvider(s).value.2;
      assert r == ":" + r[1..] && p == p[..k] + p[k..];
      Associate(p[..k], tail, rest);
      Associate(b, p[..k] + tail, rest);
      Associate(":", b + (p[..k] + tail), rest);
      head := a + (":" + (b + (p[..k] + tail)));
      Associate(a, ":" + (b + (p[..k] + tail)), rest);
      assert ProviderShape(head, a, b, p[..k], tail);
    }
  }

  lemma ProviderComplete(head: string, provider: Option<string>, mode: Option<string>, tail: string,
                         digits: Option<string>)
    requires MatchesProvider(head, provider, mode) && MatchesPercent(tail, digits)
    ensures ScanProvider(head + tail) == Some((provider, mode, tail))
    ensures StopsClass(NameChar, head + tail)
  {
    PercentOpens(tail, digits);
    if provider.None? {
      assert head + tail == tail;
    } else {
      var a, b, m :| ProviderShape(head, a, b, provider.value, m) && MatchesMode(m, mode);
      ModeComplete(m, mode, tail, digits);
      ProviderScanned(a, b, provider.value, m, tail);
    }
  }

  lemma ProviderIsNotSpace(p: string, rest: string)
    requires IsProvider(p)
    ensures StopsClass(Space, p + rest)
  {
    assert (p + rest)[0] == p[0];
  }

  lemma ProviderScanned(a: string, b: string, p: string, m: string, tail: string)
    requires AllSpace(a) && AllSpace(b) && IsProvider(p)
    requires StopsClass(ProviderChar, m + tail) && ScanMode(m + tail).Some? && ScanMode(m + tail).value.1 == tail
    ensures var s := a + (":" + (b + (p + m))) + tail;
            ScanProvider(s) == Some((Some(p), ScanMode(m + tail).value.0, tail)) && StopsClass(NameChar, s)
  {
    hide ScanMode, IsSpace, AllSpace, SkipSpace;
    Associate(p, m, tail);
    Associate(b, p + m, tail);
    Associate(":", b + (p + m), tail);
    Associate(a, ":" + (b + (p + m)), tail);
    SkipSpaceTo(a, ":", b + (p + (m + tail)));
    ProviderIsNotSpace(p, m + tail);
    SkipSpaceOf(b, p + (m + tail));
    SpanOf(ProviderChar, p, m + tail);
  }

  lemma CaptureSound(t: string)
    requires Capture(t).Some?
    ensures Matches(t, Capture(t).value)
  {
    hide IsSpace, AllSpace, AllIn, MatchesProvider, MatchesPercent, ScanProvider, ScanPercent, Span;
    var k := Span(NameChar, t);
    var s := ProviderSound(t[k..]);
    var rest := ScanProvider(t[k..]).value.2;
    PercentSound(rest);
    assert LeafShape(t, t[..k], s, rest);
  }

  lemma CaptureComplete(t: string, c: Captures)
    requires Matches(t, c)
    ensures Capture(t) == Some(c)
  {
    hide IsSpace, AllSpace, AllIn, MatchesProvider, MatchesPercent, ScanProvider, ScanPercent, Span, StopsClass;
    var s, u :| LeafShape(t, c.name, s, u) && MatchesProvider(s, c.provider, c.mode) && MatchesPercent(u, c.digits);
    ProviderComplete(s, c.provider, c.mode, u, c.digits);
    PercentComplete(u, c.digits);
    SpanOf(NameChar, c.name, s + u);
    assert t[0] == c.name[0];
  }

  /** The scanner accepts exactly the language of the expression, with the expression's captures. */
  lemma CaptureDecidesMatch(t: string, c: Captures)
    ensures Matches(t, c) <==> Capture(t) == Some(c)
  {
    hide Matches, Capture;
    if Capture(t) == Some(c) { CaptureSound(t); }
    if Matches(t, c) { CaptureComplete(t, c); }
  }

  // ---- From captures to leaves ----

  /** `str::parse::<u32>`: a value that does not fit is dropped. */
  function ParseU32(digits: string): Option<U32>
    requires IsDigits(digits)
  {
    if ReadNat(digits) < 0x1_0000_0000 then Some(ReadNat(digits)) else None
  }

  lemma CapturesAreWellFormed(t: string)
    requires Capture(t).Some?
    ensures var c := Capture(t).value;
            Matches(t, c) && (c.digits.Some? ==> IsDigits(c.digits.value))
  {
    CaptureDecidesMatch(t, Capture(t).value);
  }

  function ParseLeaf(t: string): Option<LayoutLeaf> {
    match Capture(t)
    case None => None
    case Some(c) =>
      CapturesAreWellFormed(t);
      var percent: Option<U32> := match c.digits case None => None case Some(d) => ParseU32(d);
      Some(LayoutLeaf(c.name, c.provider, c.mode, percent))
  }

  /** What becomes of the digits after `@`: a value that fits 32 bits is kept, any other is silently dropped. */
  lemma PercentIsKept(t: string)
    requires Capture(t).Some? && Capture(t).value.digits.Some?
    ensures ParseLeaf(t).Some? && IsDigits(Capture(t).value.digits.value)
    ensures var n := ReadNat(Capture(t).value.digits.value);
      ParseLeaf(t).value.percent == if n < 0x1_0000_0000 then Some(n) else None
  {
    hide Capture, ReadNat, Matches;
    CapturesAreWellFormed(t);
  }

  /** So a pane sized with any number of 2^32 or more reads as the pane without a size. */
  lemma LargePercentIsLost(name: string, n: nat)
    requires IsName(name) && n >= 0x1_0000_0000
    ensures ParseLeaf(name + "@" + ShowNat(n)) == Some(LayoutLeaf(name, None, None, None))
  {
    hide Capture, IsName, ShowNat, ReadNat, Matches;
    var t, d := name + "@" + ShowNat(n), ShowNat(n);
    var c := Captures(name, None, None, Some(d));
    SizedMatches(name, d);
    CaptureDecidesMatch(t, c);
    PercentIsKept(t);
    ReadShowNat(n);
  }

  lemma SizedMatches(name: string, d: string)
    requires IsName(name) && IsDigits(d)
    ensures Matches(name + "@" + d, Captures(name, None, None, Some(d)))
  {
    hide IsName, IsDigits;
    assert PercentShape("@" + d, "", "", d);
    assert name + "@" + d == name + ("" + ("@" + d));
    assert LeafShape(name + "@" + d, name, "", "@" + d);
  }

  /** A leaf that has a written form: name and provider in the expression's language, no mode but `worktree`. */
  predicate WfLeaf(l: LayoutLeaf) {
    && IsName(l.name)
    && (l.provider.Some? ==> IsProvider(l.provider.value))
    && (l.mode.Some? ==> l.mode.value == "worktree" && l.provider.Some?)
  }

  /** Whatever the parser accepts is well formed. */
  lemma ParsedLeafIsWf(t: string)
    requires ParseLeaf(t).Some?
    ensures WfLeaf(ParseLeaf(t).value)
  {
    CapturesAreWellFormed(t);
  }

  /** A well-formed leaf is written as its captures. */
  lemma RenderedLeafMatches(l: LayoutLeaf) returns (c: Captures)
    requires WfLeaf(l)
    ensures Matches(RenderLeaf(l), c) && c.name == l.name && c.provider == l.provider && c.mode == l.mode
    ensures c.digits == match l.percent case Some(n) => Some(ShowNat(n)) case None => None
  {
    hide IsName, IsProvider, IsSpace, MatchesProvider, MatchesPercent, ShowNat;
    var digits := match l.percent case Some(n) => Some(ShowNat(n)) case None => None;
    c := Captures(l.name, l.provider, l.mode, digits);
    var u := RenderedPercent(l.percent, digits);
    var s := RenderedProvider(l.provider, l.mode);
    RenderedParts(l, s, u);
    assert LeafShape(RenderLeaf(l), l.name, s, u);
  }

  lemma RenderedParts(l: LayoutLeaf, s: string, u: string)
    requires l.mode.Some? ==> l.mode.value == "worktree"
    requires s == match l.provider case None => "" case Some(p) => ":" + (p + if l.mode.Some? then "(worktree)" else "")
    requires u == match l.percent case Some(n) => "@" + ShowNat(n) case None => ""
    ensures RenderLeaf(l) == l.name + (s + u)
  {
    hide ShowNat;
    if l.provider.None? {
      Grouped(l.name, "", "", "", u);
    } else {
      Grouped(l.name, ":", l.provider.value, if l.mode.Some? then "(worktree)" else "", u);
    }
  }

  lemma Grouped(name: string, mark: string, p: string, mode: string, u: string)
    ensures name + mark + p + mode + u == name + ((mark + (p + mode)) + u)
    ensures mode == "" ==> name + mark + p + u == name + ((mark + p) + u) && p + mode == p
    ensures mark == "" && p == "" && mode == "" ==> name + u == name + ("" + u)
  {}


  lemma RenderedProvider(provider: Option<string>, mode: Option<string>) returns (s: string)
    requires provider.None? ==> mode.None?
    requires provider.Some? ==> IsProvider(provider.value)
    requires mode.Some? ==> mode.value == "worktree"
    ensures s == match provider case None => "" case Some(p) => ":" + (p + if mode.Some? then "(worktree)" else "")
    ensures MatchesProvider(s, provider, mode)
  {
    hide IsProvider, IsSpace, ProviderShape, MatchesMode, AllSpace;
    if provider.None? {
      return "";
    }
    var p, tail := provider.value, if mode.Some? then "(worktree)" else "";
    s := ":" + (p + tail);
    RenderedMode(mode);
    TightProvider(p, tail);
  }

  lemma RenderedMode(mode: Option<string>)
    requires mode.Some? ==> mode.value == "worktree"
    ensures MatchesMode(if mode.Some? then "(worktree)" else "", mode)
  {
    hide IsSpace;
    if mode.Some? { assert ModeShape("(worktree)", "", "", mode.value, ""); }
  }

  lemma TightProvider(p: string, tail: string)
    ensures ProviderShape(":" + (p + tail), "", "", p, tail)
  {
    hide IsSpace;
  }

  lemma RenderedPercent(percent: Option<U32>, digits: Option<string>) returns (u: string)
    requires digits == match percent case Some(n) => Some(ShowNat(n)) case None => None
    ensures u == match percent case Some(n) => "@" + ShowNat(n) case None => ""
    ensures MatchesPercent(u, digits)
  {
    hide ShowNat, AllIn;
    u := match percent case Some(n) => "@" + ShowNat(n) case None => "";
    if percent.Some? { assert PercentShape(u, "", "", digits.value); }
  }

  /** Reading a rendered leaf back gives the leaf exactly when it is well formed. */
  lemma LeafRoundTrip(l: LayoutLeaf)
    ensures ParseLeaf(RenderLeaf(l)) == Some(l) <==> WfLeaf(l)
  {
    hide Matches;
    if WfLeaf(l) {
      var c := RenderedLeafMatches(l);
      CaptureDecidesMatch(RenderLeaf(l), c);
      if l.percent.Some? { ReadShowNat(l.percent.value); }
    }
    if ParseLeaf(RenderLeaf(l)) == Some(l) { ParsedLeafIsWf(RenderLeaf(l)); }
  }
}
