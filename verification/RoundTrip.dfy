/** The law of the layout language: parsing rendered text gives the tree, up to left re-association. */
module RoundTrip {
  import opened Text
  import opened Layout
  import opened LeafToken
  import opened Tokenizer
  import opened Grammar
  import opened LayoutParsing

  // ---- Rendered text as tokens ----

  /** The tokens of a rendered tree. */
  function RenderedTokens(n: LayoutNode): seq<string>
    decreases n, 0
  {
    match n
    case Leaf(l) => [RenderLeaf(l)]
    case Split(k, l, r) => ChildTokens(l, k) + [[Separator(k)]] + ChildTokens(r, k)
  }

  predicate Parenthesised(n: LayoutNode, parent: Kind) { n.Split? && n.kind == Horizontal && parent == Vertical }

  function ChildTokens(n: LayoutNode, parent: Kind): seq<string>
    decreases n, 1
  {
    if Parenthesised(n, parent) then ["("] + RenderedTokens(n) + [")"] else RenderedTokens(n)
  }

  lemma ChildText(n: LayoutNode, parent: Kind)
    ensures RenderChild(n, parent) == if Parenthesised(n, parent) then "(" + Render(n) + ")" else Render(n)
  {}

  // ---- Trees whose leaf texts read as leaves, not necessarily the same ----

  predicate Readable(n: LayoutNode) {
    match n
    case Leaf(l) => ParseLeaf(RenderLeaf(l)).Some?
    case Split(_, l, r) => Readable(l) && Readable(r)
  }

  /** The tree with every leaf as its text reads. */
  function Reread(n: LayoutNode): LayoutNode {
    match n
    case Leaf(l) => (match ParseLeaf(RenderLeaf(l)) case Some(m) => Leaf(m) case None => n)
    case Split(k, l, r) => Split(k, Reread(l), Reread(r))
  }

  lemma {:induction false} WfIsReread(n: LayoutNode)
    requires WfTree(n)
    ensures Readable(n) && Reread(n) == n
  {
    hide ParseLeaf, WfLeaf;
    match n
    case Leaf(l) => LeafRoundTrip(l);
    case Split(_, l, r) => WfIsReread(l); WfIsReread(r);
  }

  lemma {:induction false} ReadableLeaves(n: LayoutNode)
    ensures Readable(n) <==> forall l :: l in n.Leaves() ==> ParseLeaf(RenderLeaf(l)).Some?
  {
    hide ParseLeaf, RenderLeaf;
    if n.Split? {
      ReadableLeaves(n.left);
      ReadableLeaves(n.right);
    } else {
      assert n.leaf in n.Leaves();
    }
  }

  // ---- A left-associated tree is what the grammar derives from its tokens ----

  lemma {:induction false} LeafDerived(n: LayoutNode)
    requires n.Leaf? && Readable(n)
    ensures DerivesPrimary(RenderedTokens(n), Reread(n))
  {
    hide ParseLeaf;
    LeafIsNoMark(RenderLeaf(n.leaf));
  }

  lemma LeafIsNoMark(t: string)
    requires ParseLeaf(t).Some?
    ensures !IsMark(t)
  {
    assert IsAlpha(t[0]);
  }

  lemma {:induction false} HorizontalDerived(n: LayoutNode)
    requires LeftAssociated(n) && Readable(n)
    ensures DerivesHorizontal(RenderedTokens(n), Reread(n))
    ensures !(n.Split? && n.kind == Horizontal) ==> DerivesVertical(RenderedTokens(n), Reread(n))
    decreases n, 1
  {
    hide ParseLeaf, RenderLeaf;
    if n.Split? && n.kind == Horizontal {
      var a, b := ChildTokens(n.left, Horizontal), ChildTokens(n.right, Horizontal);
      HorizontalDerived(n.left);
      HorizontalDerived(n.right);
      var ts := a + [[Separator(Horizontal)]] + b;
      assert ts[..|a|] == a && ts[|a| + 1..] == b;
      assert HorizontalAt(ts, |a|, Reread(n));
    } else {
      VerticalDerived(n);
    }
  }

  lemma {:induction false} VerticalDerived(n: LayoutNode)
    requires LeftAssociated(n) && Readable(n) && !(n.Split? && n.kind == Horizontal)
    ensures DerivesVertical(RenderedTokens(n), Reread(n))
    ensures n.Leaf? ==> DerivesPrimary(RenderedTokens(n), Reread(n))
    decreases n, 0
  {
    hide ParseLeaf, RenderLeaf;
    if n.Leaf? {
      LeafDerived(n);
    } else {
      var a, b := ChildTokens(n.left, Vertical), ChildTokens(n.right, Vertical);
      ChildDerived(n.left);
      ChildDerived(n.right);
      var ts := a + [[Separator(Vertical)]] + b;
      assert ts[..|a|] == a && ts[|a| + 1..] == b;
      assert VerticalAt(ts, |a|, Reread(n));
    }
  }

  lemma {:induction false} ChildDerived(n: LayoutNode)
    requires LeftAssociated(n) && Readable(n)
    ensures DerivesVertical(ChildTokens(n, Vertical), Reread(n))
    ensures !(n.Split? && n.kind == Vertical) ==> DerivesPrimary(ChildTokens(n, Vertical), Reread(n))
    decreases n, 2
  {
    hide ParseLeaf, RenderLeaf;
    if n.Split? && n.kind == Horizontal {
      HorizontalDerived(n);
      var ts := ["("] + RenderedTokens(n) + [")"];
      assert ts[1..|ts| - 1] == RenderedTokens(n);
    } else {
      VerticalDerived(n);
    }
  }

  // ---- Rendered text tokenizes to those tokens ----

  lemma {:induction false} ScanLeaf(l: LayoutLeaf, pad: string, rest: string)
    requires WfLeaf(l) && AllSpace(pad) && EndsNode(rest)
    ensures ScanLine(RenderLeaf(l) + rest, pad) == [RenderLeaf(l)] + ScanLine(rest, "")
  {
    hide IsSpace, AllSpace, Trim, IsPunctuation, Flush;
    var body := RenderLeaf(l);
    ScanLeafBody(l, pad, rest);
    ScanEnd(rest, pad + body);
    LeafIsTrimmed(l);
    FlushPadded(pad, body);
  }

  lemma FlushPadded(pad: string, body: string)
    requires AllSpace(pad) && Trimmed(body) && body != []
    ensures Flush(pad + body) == [body]
  {
    TrimPadded(pad, body);
  }

  lemma LeafIsTrimmed(l: LayoutLeaf)
    requires WfLeaf(l)
    ensures Trimmed(RenderLeaf(l)) && RenderLeaf(l) != []
  {
    var t := RenderLeaf(l);
    assert t[0] == l.name[0];
    match l.percent
    case Some(n) => assert t[|t| - 1] == ShowNat(n)[|ShowNat(n)| - 1];
    case None =>
      match l.provider
      case Some(p) => assert l.mode.None? ==> t[|t| - 1] == p[|p| - 1];
      case None => assert t[|t| - 1] == l.name[|l.name| - 1];
  }

  lemma PlainParts(l: LayoutLeaf)
    requires WfLeaf(l)
    ensures Plain(l.name) && Plain(":") && (l.provider.Some? ==> Plain(l.provider.value))
    ensures l.percent.Some? ==> Plain("@" + ShowNat(l.percent.value))
  {}

  lemma PlainAppend(a: string, b: string)
    requires Plain(a) && Plain(b)
    ensures Plain(a + b)
  {}

  /** All of a rendered leaf moves into the buffer. */
  lemma ScanLeafBody(l: LayoutLeaf, pad: string, rest: string)
    requires WfLeaf(l) && AllSpace(pad)
    ensures ScanLine(RenderLeaf(l) + rest, pad) == ScanLine(rest, pad + RenderLeaf(l))
  {
    hide IsSpace, AllSpace, Trim, IsPunctuation, ScanLine, Plain, IsName, IsProvider;
    PlainParts(l);
    var u := match l.percent case Some(n) => "@" + ShowNat(n) case None => "";
    assert Plain(u) by { PlainEmpty(); }
    match l.provider
    case None =>
      assert RenderLeaf(l) == l.name + u;
      PlainAppend(l.name, u);
      ScanPlain(l.name + u, rest, pad);
    case Some(p) =>
      var head := l.name + ":" + p;
      PlainAppend(l.name, ":");
      PlainAppend(l.name + ":", p);
      if l.mode.None? {
        assert RenderLeaf(l) == head + u;
        PlainAppend(head, u);
        ScanPlain(head + u, rest, pad);
      } else {
        assert RenderLeaf(l) == head + "(worktree)" + u;
        NameStarts(l.name, ":" + p);
        assert head == l.name + (":" + p);
        ScanWorktree(pad, head, u, rest);
      }
  }

  lemma NameStarts(name: string, rest: string)
    requires IsName(name)
    ensures name + rest != [] && !IsSpace((name + rest)[0])
  {}

  lemma PlainEmpty()
    ensures Plain("")
  {}

  lemma ScanWorktree(pad: string, head: string, u: string, rest: string)
    requires AllSpace(pad) && Plain(head) && Plain(u) && head != [] && !IsSpace(head[0])
    ensures ScanLine(head + "(worktree)" + u + rest, pad) == ScanLine(rest, pad + (head + "(worktree)" + u))
  {
    hide ScanLine, Plain, IsSpace, AllSpace, Trim;
    var group := "(worktree)";
    assert group == "(" + "worktree" + ")";
    Regroup4(head, group, u, rest);
    ScanPlain(head, group + (u + rest), pad);
    NotBlank(pad, head);
    ScanGroup("worktree", group, u + rest, pad + head);
    ScanPlain(u, rest, pad + head + group);
    Regroup4(pad, head, group, u);
    Associate(head, group, u);
  }

  lemma NotBlank(pad: string, head: string)
    requires head != [] && !IsSpace(head[0])
    ensures Trim(pad + head) != []
  {
    TrimIsTrimmed(pad + head);
    assert (pad + head)[|pad|] == head[0];
  }

  /** The text is one token as it stands: no mark in it, no comment, no white space around it. */
  predicate PlainLeaf(l: LayoutLeaf) {
    var t := RenderLeaf(l);
    Trimmed(t) && t != [] && Plain(t) && Uncommented(t)
  }

  predicate Uncommented(s: string) { forall i :: 0 <= i < |s| ==> s[i] != '\n' && s[i] != '#' && s[i] != '/' }

  predicate Scannable(n: LayoutNode) {
    match n
    case Leaf(l) => WfLeaf(l) || PlainLeaf(l)
    case Split(_, l, r) => Scannable(l) && Scannable(r)
  }

  lemma {:induction false} WfIsScannable(n: LayoutNode)
    requires WfTree(n)
    ensures Scannable(n)
  {
    hide WfLeaf;
    if n.Split? {
      WfIsScannable(n.left);
      WfIsScannable(n.right);
    }
  }

  lemma {:induction false} ScannableLeaves(n: LayoutNode)
    ensures Scannable(n) <==> forall l :: l in n.Leaves() ==> WfLeaf(l) || PlainLeaf(l)
  {
    hide WfLeaf, PlainLeaf;
    if n.Split? {
      ScannableLeaves(n.left);
      ScannableLeaves(n.right);
    } else {
      assert n.leaf in n.Leaves();
    }
  }

  lemma ScanPlainLeaf(l: LayoutLeaf, pad: string, rest: string)
    requires PlainLeaf(l) && AllSpace(pad) && EndsNode(rest)
    ensures ScanLine(RenderLeaf(l) + rest, pad) == [RenderLeaf(l)] + ScanLine(rest, "")
  {
    hide IsSpace, AllSpace, Trim, IsPunctuation, Flush, RenderLeaf;
    var body := RenderLeaf(l);
    ScanPlain(body, rest, pad);
    ScanEnd(rest, pad + body);
    FlushPadded(pad, body);
  }

  lemma {:induction false} ScanNode(n: LayoutNode, pad: string, rest: string)
    requires Scannable(n) && AllSpace(pad) && EndsNode(rest)
    ensures ScanLine(Render(n) + rest, pad) == RenderedTokens(n) + ScanLine(rest, "")
    decreases n, 0
  {
    hide ScanLine, AllSpace, WfLeaf, PlainLeaf, RenderLeaf, RenderChild, ChildTokens, EndsNode;
    match n
    case Leaf(l) => if WfLeaf(l) { ScanLeaf(l, pad, rest); } else { ScanPlainLeaf(l, pad, rest); }
    case Split(k, l, r) =>
      var sep, right := [Separator(k), ' '], RenderChild(r, k);
      var mid := sep + (right + rest);
      SeparatorEnds(k, right + rest);
      ScanChild(l, k, pad, mid);
      ScanSeparator(k, right + rest);
      ScanChild(r, k, " ", rest);
      Regroup4(RenderChild(l, k), sep, right, rest);
      Regroup4(ChildTokens(l, k), [[Separator(k)]], ChildTokens(r, k), ScanLine(rest, ""));
  }

  lemma AllSpaceNothing()
    ensures AllSpace("")
  {}

  lemma Regroup4<T>(a: seq<T>, b: seq<T>, c: seq<T>, d: seq<T>)
    ensures a + b + c + d == a + (b + (c + d))
  {}

  lemma SeparatorEnds(k: Kind, rest: string)
    ensures EndsNode([Separator(k), ' '] + rest) && AllSpace(" ")
  {}

  lemma ScanSeparator(k: Kind, rest: string)
    ensures ScanLine([Separator(k), ' '] + rest, "") == [[Separator(k)]] + ScanLine(rest, " ")
  {
    hide ScanLine;
    assert [Separator(k), ' '] + rest == [Separator(k)] + ([' '] + rest);
    ScanPunctuation(Separator(k), [' '] + rest, "");
    ScanPlain(" ", rest, "");
    assert "" + " " == " ";
  }

  lemma {:induction false} ScanChild(n: LayoutNode, parent: Kind, pad: string, rest: string)
    requires Scannable(n) && AllSpace(pad) && EndsNode(rest)
    ensures ScanLine(RenderChild(n, parent) + rest, pad) == ChildTokens(n, parent) + ScanLine(rest, "")
    decreases n, 1
  {
    hide ScanLine, AllSpace, WfLeaf, PlainLeaf, RenderLeaf, Render, RenderedTokens;
    ChildText(n, parent);
    AllSpaceNothing();
    if Parenthesised(n, parent) {
      var close := [')'] + rest;
      Regroup4(["("], RenderedTokens(n), [")"], ScanLine(rest, ""));
      assert RenderChild(n, parent) + rest == ['('] + (Render(n) + close);
      ScanPunctuation('(', Render(n) + close, pad);
      ScanNode(n, "", close);
      ScanPunctuation(')', rest, "");
    } else {
      ScanNode(n, pad, rest);
    }
  }

  /** No line feed, no comment character, and none of the marks of a TOML document. */
  predicate Inert(s: string) {
    forall i :: 0 <= i < |s| ==> s[i] != '\n' && s[i] != '#' && s[i] != '/' && s[i] != '=' && s[i] != '['
  }

  lemma InertAppend(a: string, b: string)
    requires Inert(a) && Inert(b)
    ensures Inert(a + b)
  {}

  lemma InertParts(l: LayoutLeaf)
    requires WfLeaf(l)
    ensures Inert(l.name) && Inert(":") && Inert("") && Inert("(worktree)")
    ensures l.provider.Some? ==> Inert(l.provider.value)
    ensures l.percent.Some? ==> Inert("@" + ShowNat(l.percent.value))
  {}

  lemma LeafIsInert(l: LayoutLeaf)
    requires WfLeaf(l)
    ensures Inert(RenderLeaf(l))
  {
    hide Inert, WfLeaf;
    InertParts(l);
    var head := l.name;
    if l.provider.Some? {
      InertAppend(l.name, ":");
      InertAppend(l.name + ":", l.provider.value);
      head := l.name + ":" + l.provider.value;
      InertAppend(head, "(worktree)");
      if l.mode == Some("worktree") { head := head + "(worktree)"; }
    }
    InertAppend(head, if l.percent.Some? then "@" + ShowNat(l.percent.value) else "");
  }

  lemma {:induction false} RenderIsInert(n: LayoutNode)
    requires WfTree(n)
    ensures Inert(Render(n)) && Render(n) != []
  {
    hide WfLeaf, RenderLeaf;
    match n
    case Leaf(l) =>
      LeafIsInert(l);
      LeafIsTrimmed(l);
    case Split(k, l, r) =>
      RenderIsInert(l);
      RenderIsInert(r);
      ChildText(l, k);
      ChildText(r, k);
  }

  lemma {:induction false} RenderIsUncommented(n: LayoutNode)
    requires Scannable(n)
    ensures Uncommented(Render(n)) && Render(n) != []
  {
    hide WfLeaf, RenderLeaf;
    match n
    case Leaf(l) =>
      if WfLeaf(l) {
        LeafIsInert(l);
        LeafIsTrimmed(l);
      }
    case Split(k, l, r) =>
      RenderIsUncommented(l);
      RenderIsUncommented(r);
      ChildText(l, k);
      ChildText(r, k);
  }

  lemma RenderTokenizes(n: LayoutNode)
    requires Scannable(n)
    ensures Tokens(Render(n)) == RenderedTokens(n)
  {
    hide ScanLine, StripComment, Lines, Scannable, Render, RenderedTokens, Flush, Trim;
    var text := Render(n);
    RenderIsUncommented(n);
    PlainTextIsOneLine(text);
    ScanNode(n, "", "");
    assert text + "" == text;
    ScanNothing("", "");
    FlushNothing();
    OneScannedLine(text);
  }

  lemma OneScannedLine(line: string)
    requires StripComment(line) == line
    ensures ScanLines([line]) == ScanLine(line, "")
  {
    hide ScanLine, StripComment;
    assert [line][1..] == [] && ScanLines([]) == [];
  }

  // ---- The law ----

  /** Parsing what a tree renders to gives its left re-association exactly when every leaf has a written form. */
  lemma ParseRender(n: LayoutNode)
    ensures ParseLayout(Render(n)) == Ok(Norm(n)) <==> WfTree(n)
  {
    NormLeaves(n);
    WfTreeLeaves(n);
    WfTreeLeaves(Norm(n));
    if WfTree(n) {
      NormRenders(n);
      NormLeftAssociated(n);
      WfIsScannable(Norm(n));
      WfIsReread(Norm(n));
      RenderTokenizes(Norm(n));
      HorizontalDerived(Norm(n));
      ParserDecidesGrammar(RenderedTokens(Norm(n)), Norm(n));
    }
    if ParseLayout(Render(n)) == Ok(Norm(n)) {
      ParsedLeaves(Tokens(Render(n)), Norm(n));
    }
  }

  /** A layout may be broken into two lines behind a separator. */
  lemma ParseTwoLines(n: LayoutNode)
    requires WfTree(n) && n.Split?
    ensures ParseLayout(RenderChild(n.left, n.kind) + [Separator(n.kind)] + ['\n'] + RenderChild(n.right, n.kind)) ==
            Ok(Norm(n))
  {
    hide ParseHorizontal, Render, RenderChild, RenderedTokens, ChildTokens, Tokens, Norm, WfLeaf;
    var a, b := RenderChild(n.left, n.kind), RenderChild(n.right, n.kind);
    ChildTokenizes(n.left, n.kind);
    ChildTokenizes(n.right, n.kind);
    TokensOfLines(a + [Separator(n.kind)], b);
    ParseRender(n);
    WfIsScannable(n);
    RenderTokenizes(n);
    SplitTokens(n);
  }

  lemma SplitTokens(n: LayoutNode)
    requires n.Split?
    ensures RenderedTokens(n) == ChildTokens(n.left, n.kind) + [[Separator(n.kind)]] + ChildTokens(n.right, n.kind)
  {}

  lemma ChildTokenizes(n: LayoutNode, parent: Kind)
    requires WfTree(n)
    ensures Tokens(RenderChild(n, parent)) == ChildTokens(n, parent)
    ensures Tokens(RenderChild(n, parent) + [Separator(parent)]) == ChildTokens(n, parent) + [[Separator(parent)]]
    ensures '\n' !in RenderChild(n, parent)
  {
    hide ScanLine, StripComment, Lines, Render, RenderedTokens, ChildTokens, Flush, Trim, WfLeaf, ScanLines;
    var text := RenderChild(n, parent);
    WfIsScannable(n);
    RenderIsUncommented(n);
    ChildText(n, parent);
    PlainTextIsOneLine(text);
    PlainTextIsOneLine(text + [Separator(parent)]);
    OneScannedLine(text);
    OneScannedLine(text + [Separator(parent)]);
    AllSpaceNothing();
    ScanChild(n, parent, "", "");
    ScanChild(n, parent, "", [Separator(parent)]);
    ScanPunctuation(Separator(parent), "", "");
    assert text + "" == text && [Separator(parent)] + "" == [Separator(parent)];
    ScanNothing("", "");
    FlushNothing();
  }

  /** The text of a left-associated tree whose leaf texts are tokens parses exactly when all of these read as leaves,
      and then to the tree of what they read as. */
  lemma ParseRenderedText(n: LayoutNode)
    requires LeftAssociated(n) && Scannable(n)
    ensures ParseLayout(Render(n)) == Ok(Reread(n)) <==> Readable(n)
    ensures ParseLayout(Render(n)).Ok? <==> Readable(n)
  {
    hide ParseHorizontal, ParseLeaf, RenderLeaf, Scannable;
    RenderTokenizes(n);
    if Readable(n) {
      HorizontalDerived(n);
      ParserDecidesGrammar(RenderedTokens(n), Reread(n));
    }
    if ParseLayout(Render(n)).Ok? {
      ParsedLeaves(Tokens(Render(n)), ParseLayout(Render(n)).value);
      ReadTokens(n, LeafTokens(RenderedTokens(n)));
    }
  }

  /** Every leaf text is a mark or one of the leaf tokens. */
  lemma {:induction false} LeafTextIsToken(n: LayoutNode, l: LayoutLeaf)
    requires l in n.Leaves()
    ensures RenderLeaf(l) in RenderedTokens(n)
  {
    hide RenderLeaf;
    if n.Split? {
      if l in n.left.Leaves() { LeafTextIsToken(n.left, l); } else { LeafTextIsToken(n.right, l); }
    }
  }

  lemma {:induction false} TokenIsLeafToken(ts: seq<string>, t: string)
    requires t in ts && !IsMark(t)
    ensures t in LeafTokens(ts)
  {
    hide IsMark;
    if ts[0] != t { TokenIsLeafToken(ts[1..], t); }
  }

  lemma ReadTokens(n: LayoutNode, tokens: seq<string>)
    requires Scannable(n) && tokens == LeafTokens(RenderedTokens(n))
    requires forall i :: 0 <= i < |tokens| ==> ParseLeaf(tokens[i]).Some?
    ensures Readable(n)
  {
    hide ParseLeaf, RenderLeaf, RenderedTokens, LeafTokens, IsMark, Scannable, Readable;
    ReadableLeaves(n);
    ScannableLeaves(n);
    forall l | l in n.Leaves() ensures ParseLeaf(RenderLeaf(l)).Some? {
      LeafTextIsToken(n, l);
      ScannableIsNoMark(l);
      TokenIsLeafToken(RenderedTokens(n), RenderLeaf(l));
      var i :| 0 <= i < |tokens| && tokens[i] == RenderLeaf(l);
    }
  }

  lemma ScannableIsNoMark(l: LayoutLeaf)
    requires WfLeaf(l) || PlainLeaf(l)
    ensures !IsMark(RenderLeaf(l))
  {
    hide ParseLeaf;
    if WfLeaf(l) {
      LeafRoundTrip(l);
      LeafIsNoMark(RenderLeaf(l));
    } else {
      assert !IsPunctuation(RenderLeaf(l)[0]);
    }
  }

  /** Rendering, parsing and rendering again changes nothing, for the result of any successful parse. */
  lemma ReparseIsStable(text: string, n: LayoutNode)
    requires ParseLayout(text) == Ok(n)
    ensures WfTree(n)
    ensures ParseLayout(Render(n)) == Ok(Norm(n)) && Render(Norm(n)) == Render(n)
    ensures n == Norm(n) <==> ParseLayout(Render(n)) == Ok(n)
  {
    ParsedLeaves(Tokens(text), n);
    ParseRender(n);
    NormRenders(n);
  }

  /** Two trees with written leaves render alike exactly when rotations turn one into the other. */
  lemma RenderDecidesEquivalence(a: LayoutNode, b: LayoutNode)
    requires WfTree(a) && WfTree(b)
    ensures Render(a) == Render(b) <==> Norm(a) == Norm(b)
    ensures Render(a) == Render(b) <==> Equivalent(a, b)
  {
    NormDecidesEquivalence(a, b);
    NormRenders(a);
    NormRenders(b);
    ParseRender(a);
    ParseRender(b);
  }
}
