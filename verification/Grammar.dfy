/** The layout grammar over tokens, and the recursive-descent parser as a function; the two agree exactly. */
module Grammar {
  import opened Text
  import opened Layout
  import opened LeafToken

  datatype ParseError =
    | EmptyLayout
    | UnexpectedEnd
    | UnexpectedToken(token: string)
    | Expected(mark: string, found: Option<string>)
    | InvalidLeaf(token: string)

  datatype Result<+T, +E> = Ok(value: T) | Err(error: E)

  /** A node and the tokens after it. */
  datatype Parsed = Parsed(node: LayoutNode, rest: seq<string>)

  /** An error and the tokens that were left when it was found. */
  datatype Failure = Failure(error: ParseError, rest: seq<string>)

  predicate IsMark(t: string) { t == "(" || t == ")" || t == ";" || t == "," }

  // ---- The parser, as a function of the remaining tokens ----

  function Found(ts: seq<string>): Option<string> { if ts == [] then None else Some(ts[0]) }

  function ParseHorizontal(ts: seq<string>): (r: Result<Parsed, Failure>)
    ensures r.Ok? ==> |r.value.rest| < |ts|
    decreases |ts|, 4
  {
    match ParseVertical(ts)
    case Err(e) => Err(e)
    case Ok(p) => MoreHorizontal(p.node, p.rest)
  }

  /** The loop over `;`, with `acc` the node so far. */
  function MoreHorizontal(acc: LayoutNode, ts: seq<string>): (r: Result<Parsed, Failure>)
    ensures r.Ok? ==> |r.value.rest| <= |ts|
    decreases |ts|, 3
  {
    if ts == [] || ts[0] != ";" then Ok(Parsed(acc, ts))
    else
      match ParseVertical(ts[1..])
      case Err(e) => Err(e)
      case Ok(p) => MoreHorizontal(Split(Horizontal, acc, p.node), p.rest)
  }

  function ParseVertical(ts: seq<string>): (r: Result<Parsed, Failure>)
    ensures r.Ok? ==> |r.value.rest| < |ts|
    decreases |ts|, 2
  {
    match ParsePrimary(ts)
    case Err(e) => Err(e)
    case Ok(p) => MoreVertical(p.node, p.rest)
  }

  /** The loop over `,`. */
  function MoreVertical(acc: LayoutNode, ts: seq<string>): (r: Result<Parsed, Failure>)
    ensures r.Ok? ==> |r.value.rest| <= |ts|
    decreases |ts|, 1
  {
    if ts == [] || ts[0] != "," then Ok(Parsed(acc, ts))
    else
      match ParsePrimary(ts[1..])
      case Err(e) => Err(e)
      case Ok(p) => MoreVertical(Split(Vertical, acc, p.node), p.rest)
  }

  function ParsePrimary(ts: seq<string>): (r: Result<Parsed, Failure>)
    ensures r.Ok? ==> |r.value.rest| < |ts|
    decreases |ts|, 0
  {
    if ts == [] then Err(Failure(UnexpectedEnd, ts))
    else if ts[0] == "(" then
      match ParseHorizontal(ts[1..])
      case Err(e) => Err(e)
      case Ok(p) =>
        if p.rest == [] || p.rest[0] != ")" then Err(Failure(Expected(")", Found(p.rest)), p.rest))
        else Ok(Parsed(p.node, p.rest[1..]))
    else if ts[0] == ")" || ts[0] == ";" || ts[0] == "," then Err(Failure(UnexpectedToken(ts[0]), ts))
    else
      match ParseLeaf(ts[0])
      case None => Err(Failure(InvalidLeaf(ts[0]), ts[1..]))
      case Some(l) => Ok(Parsed(Leaf(l), ts[1..]))
  }

  /** A whole token list. */
  function ParseTokens(ts: seq<string>): Result<LayoutNode, ParseError> {
    if ts == [] then Err(EmptyLayout)
    else
      match ParseHorizontal(ts)
      case Err(f) => Err(f.error)
      case Ok(p) => if p.rest == [] then Ok(p.node) else Err(UnexpectedToken(p.rest[0]))
  }

  // ---- Where errors are found ----

  predicate IsSuffix(rest: seq<string>, ts: seq<string>) { |rest| <= |ts| && ts[|ts| - |rest|..] == rest }

  /** An error describes the token at the place where parsing stopped; a leaf that is none lies just before. */
  predicate Located(ts: seq<string>, f: Failure) {
    && IsSuffix(f.rest, ts)
    && match f.error
       case EmptyLayout => false
       case UnexpectedEnd => f.rest == []
       case UnexpectedToken(t) => Found(f.rest) == Some(t) && IsMark(t) && t != "("
       case Expected(mark, found) => mark == ")" && found == Found(f.rest) && found != Some(mark)
       case InvalidLeaf(t) =>
         |f.rest| < |ts| && ts[|ts| - |f.rest| - 1] == t && !IsMark(t) && ParseLeaf(t).None?
  }

  predicate Tracks(ts: seq<string>, r: Result<Parsed, Failure>) {
    match r
    case Ok(p) => IsSuffix(p.rest, ts)
    case Err(f) => Located(ts, f)
  }

  lemma TracksLonger(ts: seq<string>, tail: seq<string>, r: Result<Parsed, Failure>)
    requires IsSuffix(tail, ts) && Tracks(tail, r)
    ensures Tracks(ts, r)
  {
    hide ParseLeaf;
    var rest := match r case Ok(p) => p.rest case Err(f) => f.rest;
    assert ts[|ts| - |rest|..] == tail[|tail| - |rest|..];
  }

  lemma TailIsSuffix(ts: seq<string>)
    requires ts != []
    ensures IsSuffix(ts[1..], ts)
  {}

  lemma WholeIsSuffix(ts: seq<string>)
    ensures IsSuffix(ts, ts)
  {}

  /** Every step stops at a suffix of its tokens; an error says what stands there. */
  lemma {:induction false} ErrorsAreLocated(ts: seq<string>)
    ensures Tracks(ts, ParseHorizontal(ts))
    decreases |ts|, 4
  {
    hide ParseLeaf, Located, IsSuffix, ParseVertical;
    VerticalTracks(ts);
    if ParseVertical(ts).Ok? {
      var p := ParseVertical(ts).value;
      MoreHorizontalTracks(p.node, p.rest);
      TracksLonger(ts, p.rest, ParseHorizontal(ts));
    }
  }

  lemma {:induction false} MoreHorizontalTracks(acc: LayoutNode, ts: seq<string>)
    ensures Tracks(ts, MoreHorizontal(acc, ts))
    decreases |ts|, 3
  {
    hide ParseLeaf, Located, IsSuffix, ParseVertical;
    WholeIsSuffix(ts);
    if ts != [] && ts[0] == ";" {
      var r := ParseVertical(ts[1..]);
      TailIsSuffix(ts);
      VerticalTracks(ts[1..]);
      TracksLonger(ts, ts[1..], r);
      if r.Ok? {
        MoreHorizontalTracks(Split(Horizontal, acc, r.value.node), r.value.rest);
        TracksLonger(ts, r.value.rest, MoreHorizontal(acc, ts));
      }
    }
  }

  lemma {:induction false} VerticalTracks(ts: seq<string>)
    ensures Tracks(ts, ParseVertical(ts))
    decreases |ts|, 2
  {
    hide ParseLeaf, Located, IsSuffix, ParsePrimary;
    PrimaryTracks(ts);
    if ParsePrimary(ts).Ok? {
      var p := ParsePrimary(ts).value;
      MoreVerticalTracks(p.node, p.rest);
      TracksLonger(ts, p.rest, ParseVertical(ts));
    }
  }

  lemma {:induction false} MoreVerticalTracks(acc: LayoutNode, ts: seq<string>)
    ensures Tracks(ts, MoreVertical(acc, ts))
    decreases |ts|, 1
  {
    hide ParseLeaf, Located, IsSuffix, ParsePrimary;
    WholeIsSuffix(ts);
    if ts != [] && ts[0] == "," {
      var r := ParsePrimary(ts[1..]);
      TailIsSuffix(ts);
      PrimaryTracks(ts[1..]);
      TracksLonger(ts, ts[1..], r);
      if r.Ok? {
        MoreVerticalTracks(Split(Vertical, acc, r.value.node), r.value.rest);
        TracksLonger(ts, r.value.rest, MoreVertical(acc, ts));
      }
    }
  }

  lemma {:induction false} PrimaryTracks(ts: seq<string>)
    ensures Tracks(ts, ParsePrimary(ts))
    decreases |ts|, 0
  {
    hide ParseLeaf, ParseHorizontal;
    if ts != [] && ts[0] == "(" {
      var r := ParseHorizontal(ts[1..]);
      ErrorsAreLocated(ts[1..]);
      TracksLonger(ts, ts[1..], r);
    }
  }

  // ---- The grammar ----

  /** horizontal := vertical | horizontal `;` vertical */
  ghost predicate DerivesHorizontal(ts: seq<string>, n: LayoutNode)
    decreases |ts|, 2
  {
    || DerivesVertical(ts, n)
    || (n.Split? && n.kind == Horizontal &&
        exists k :: 0 <= k < |ts| && HorizontalAt(ts, k, n))
  }

  ghost predicate HorizontalAt(ts: seq<string>, k: nat, n: LayoutNode)
    requires k < |ts| && n.Split?
    decreases |ts|, 0
  {
    ts[k] == ";" && DerivesHorizontal(ts[..k], n.left) && DerivesVertical(ts[k + 1..], n.right)
  }

  /** vertical := primary | vertical `,` primary */
  ghost predicate DerivesVertical(ts: seq<string>, n: LayoutNode)
    decreases |ts|, 1
  {
    || DerivesPrimary(ts, n)
    || (n.Split? && n.kind == Vertical &&
        exists k :: 0 <= k < |ts| && VerticalAt(ts, k, n))
  }

  ghost predicate VerticalAt(ts: seq<string>, k: nat, n: LayoutNode)
    requires k < |ts| && n.Split?
    decreases |ts|, 0
  {
    ts[k] == "," && DerivesVertical(ts[..k], n.left) && DerivesPrimary(ts[k + 1..], n.right)
  }

  /** primary := leaf | `(` horizontal `)` */
  ghost predicate DerivesPrimary(ts: seq<string>, n: LayoutNode)
    decreases |ts|, 0
  {
    || (|ts| == 1 && !IsMark(ts[0]) && n.Leaf? && ParseLeaf(ts[0]) == Some(n.leaf))
    || (|ts| >= 2 && ts[0] == "(" && ts[|ts| - 1] == ")" && DerivesHorizontal(ts[1..|ts| - 1], n))
  }

  // ---- Completeness: what the grammar derives, the parser reads, whatever follows ----

  predicate NoComma(rest: seq<string>) { rest == [] || rest[0] != "," }

  lemma Slices(ts: seq<string>, k: nat, rest: seq<string>)
    requires k < |ts|
    ensures ts + rest == ts[..k] + ([ts[k]] + (ts[k + 1..] + rest))
    ensures ([ts[k]] + (ts[k + 1..] + rest))[1..] == ts[k + 1..] + rest
  {}

  lemma {:induction false} HorizontalComplete(ts: seq<string>, n: LayoutNode, rest: seq<string>)
    requires DerivesHorizontal(ts, n) && NoComma(rest)
    ensures ParseHorizontal(ts + rest) == MoreHorizontal(n, rest)
    decreases |ts|, 2
  {
    if DerivesVertical(ts, n) {
      VerticalComplete(ts, n, rest);
    } else {
      var k :| 0 <= k < |ts| && HorizontalAt(ts, k, n);
      Slices(ts, k, rest);
      var tail := [ts[k]] + (ts[k + 1..] + rest);
      HorizontalComplete(ts[..k], n.left, tail);
      VerticalComplete(ts[k + 1..], n.right, rest);
    }
  }

  lemma {:induction false} VerticalComplete(ts: seq<string>, n: LayoutNode, rest: seq<string>)
    requires DerivesVertical(ts, n)
    ensures ParseVertical(ts + rest) == MoreVertical(n, rest)
    decreases |ts|, 1
  {
    if DerivesPrimary(ts, n) {
      PrimaryComplete(ts, n, rest);
    } else {
      var k :| 0 <= k < |ts| && VerticalAt(ts, k, n);
      Slices(ts, k, rest);
      VerticalComplete(ts[..k], n.left, [ts[k]] + (ts[k + 1..] + rest));
      PrimaryComplete(ts[k + 1..], n.right, rest);
    }
  }

  lemma CloseSlice(ts: seq<string>, rest: seq<string>)
    requires |ts| >= 2 && ts[|ts| - 1] == ")"
    ensures (ts + rest)[1..] == ts[1..|ts| - 1] + ([")"] + rest)
  {}

  lemma LeafTokenIsNotMark(t: string)
    ensures !IsMark(t) <==> t != "(" && t != ")" && t != ";" && t != ","
  {}

  lemma {:induction false} PrimaryComplete(ts: seq<string>, n: LayoutNode, rest: seq<string>)
    requires DerivesPrimary(ts, n)
    ensures ParsePrimary(ts + rest) == Ok(Parsed(n, rest))
    decreases |ts|, 0
  {
    hide ParseLeaf, IsMark;
    assert (ts + rest)[0] == ts[0];
    if |ts| >= 2 && ts[0] == "(" && ts[|ts| - 1] == ")" && DerivesHorizontal(ts[1..|ts| - 1], n) {
      var inner, tail := ts[1..|ts| - 1], [")"] + rest;
      assert tail[0] == ")" && tail[1..] == rest;
      CloseSlice(ts, rest);
      HorizontalComplete(inner, n, tail);
      assert MoreHorizontal(n, tail) == Ok(Parsed(n, tail));
    } else {
      LeafTokenIsNotMark(ts[0]);
      assert (ts + rest)[1..] == rest;
    }
  }

  lemma CutSlices(ts: seq<string>, j: nat, i: nat)
    requires j + 1 + i <= |ts|
    ensures ts[j..][1..] == ts[j + 1..] && ts[j + 1..][i..] == ts[j + 1 + i..]
    ensures ts[..j + 1 + i][..j] == ts[..j] && ts[..j + 1 + i][j + 1..] == ts[j + 1..][..i]
  {}

  lemma ExtendHorizontal(ts: seq<string>, j: nat, acc: LayoutNode, node: LayoutNode)
    requires j < |ts| && ts[j] == ";" && DerivesHorizontal(ts[..j], acc) && DerivesVertical(ts[j + 1..], node)
    ensures DerivesHorizontal(ts, Split(Horizontal, acc, node))
  {
    assert HorizontalAt(ts, j, Split(Horizontal, acc, node));
  }

  lemma ExtendVertical(ts: seq<string>, j: nat, acc: LayoutNode, node: LayoutNode)
    requires j < |ts| && ts[j] == "," && DerivesVertical(ts[..j], acc) && DerivesPrimary(ts[j + 1..], node)
    ensures DerivesVertical(ts, Split(Vertical, acc, node))
  {
    assert VerticalAt(ts, j, Split(Vertical, acc, node));
  }

  // ---- Soundness: what the parser reads, the grammar derives ----

  lemma {:induction false} HorizontalSound(ts: seq<string>) returns (k: nat)
    requires ParseHorizontal(ts).Ok?
    ensures k <= |ts| && ts[k..] == ParseHorizontal(ts).value.rest
    ensures DerivesHorizontal(ts[..k], ParseHorizontal(ts).value.node)
    decreases |ts|, 4
  {
    var j := VerticalSound(ts);
    k := MoreHorizontalSound(ts, j, ParseVertical(ts).value.node);
  }

  lemma {:induction false} MoreHorizontalSound(ts: seq<string>, j: nat, acc: LayoutNode) returns (k: nat)
    requires 0 < j <= |ts| && DerivesHorizontal(ts[..j], acc) && MoreHorizontal(acc, ts[j..]).Ok?
    ensures k <= |ts| && ts[k..] == MoreHorizontal(acc, ts[j..]).value.rest
    ensures DerivesHorizontal(ts[..k], MoreHorizontal(acc, ts[j..]).value.node)
    decreases |ts| - j, 3
  {
    hide DerivesHorizontal, DerivesVertical, DerivesPrimary, ParseVertical, ParsePrimary;
    assert j < |ts| ==> ts[j..][0] == ts[j] && ts[j..][1..] == ts[j + 1..];
    if j == |ts| || ts[j] != ";" {
      k := j;
    } else {
      var i := VerticalSound(ts[j + 1..]);
      var p := ParseVertical(ts[j + 1..]).value;
      var m := j + 1 + i;
      CutSlices(ts, j, i);
      ExtendHorizontal(ts[..m], j, acc, p.node);
      k := MoreHorizontalSound(ts, m, Split(Horizontal, acc, p.node));
    }
  }

  lemma {:induction false} VerticalSound(ts: seq<string>) returns (k: nat)
    requires ParseVertical(ts).Ok?
    ensures 0 < k <= |ts| && ts[k..] == ParseVertical(ts).value.rest
    ensures DerivesVertical(ts[..k], ParseVertical(ts).value.node)
    decreases |ts|, 2
  {
    var j := PrimarySound(ts);
    k := MoreVerticalSound(ts, j, ParsePrimary(ts).value.node);
  }

  lemma {:induction false} MoreVerticalSound(ts: seq<string>, j: nat, acc: LayoutNode) returns (k: nat)
    requires 0 < j <= |ts| && DerivesVertical(ts[..j], acc) && MoreVertical(acc, ts[j..]).Ok?
    ensures 0 < k <= |ts| && ts[k..] == MoreVertical(acc, ts[j..]).value.rest
    ensures DerivesVertical(ts[..k], MoreVertical(acc, ts[j..]).value.node)
    decreases |ts| - j, 1
  {
    hide DerivesHorizontal, DerivesVertical, DerivesPrimary, ParseVertical, ParsePrimary;
    assert j < |ts| ==> ts[j..][0] == ts[j] && ts[j..][1..] == ts[j + 1..];
    if j == |ts| || ts[j] != "," {
      k := j;
    } else {
      var i := PrimarySound(ts[j + 1..]);
      var p := ParsePrimary(ts[j + 1..]).value;
      var m := j + 1 + i;
      CutSlices(ts, j, i);
      ExtendVertical(ts[..m], j, acc, p.node);
      k := MoreVerticalSound(ts, m, Split(Vertical, acc, p.node));
    }
  }

  lemma {:induction false} PrimarySound(ts: seq<string>) returns (k: nat)
    requires ParsePrimary(ts).Ok?
    ensures 0 < k <= |ts| && ts[k..] == ParsePrimary(ts).value.rest
    ensures DerivesPrimary(ts[..k], ParsePrimary(ts).value.node)
    decreases |ts|, 0
  {
    if ts[0] == "(" {
      var j := HorizontalSound(ts[1..]);
      k := j + 2;
      assert ts[1..][j..] == ts[j + 1..];
      assert ts[..k][1..|ts[..k]| - 1] == ts[1..][..j];
    } else {
      k := 1;
    }
  }

  /** The parser succeeds with `n` exactly when the grammar derives `n`; in particular the tree is unique. */
  lemma ParserDecidesGrammar(ts: seq<string>, n: LayoutNode)
    ensures ParseTokens(ts) == Ok(n) <==> DerivesHorizontal(ts, n)
  {
    if DerivesHorizontal(ts, n) {
      HorizontalComplete(ts, n, []);
      assert ts + [] == ts;
    }
    if ParseTokens(ts) == Ok(n) {
      var k := HorizontalSound(ts);
      assert ts[..k] == ts;
    }
  }

  // ---- Leaves ----

  /** Every leaf has a written form. */
  predicate WfTree(n: LayoutNode) {
    match n
    case Leaf(l) => WfLeaf(l)
    case Split(_, l, r) => WfTree(l) && WfTree(r)
  }

  predicate AllWf(leaves: seq<LayoutLeaf>) { forall i :: 0 <= i < |leaves| ==> WfLeaf(leaves[i]) }

  lemma AllWfAppend(a: seq<LayoutLeaf>, b: seq<LayoutLeaf>)
    ensures AllWf(a + b) <==> AllWf(a) && AllWf(b)
  {
    hide WfLeaf;
    if AllWf(a + b) {
      assert forall i :: 0 <= i < |a| ==> a[i] == (a + b)[i];
      assert forall i :: 0 <= i < |b| ==> b[i] == (a + b)[|a| + i];
    }
  }

  lemma {:induction false} WfTreeLeaves(n: LayoutNode)
    ensures WfTree(n) <==> AllWf(n.Leaves())
  {
    if n.Split? {
      WfTreeLeaves(n.left);
      WfTreeLeaves(n.right);
      AllWfAppend(n.left.Leaves(), n.right.Leaves());
    } else {
      assert n.Leaves()[0] == n.leaf;
    }
  }

  /** The tokens that are not punctuation. */
  function LeafTokens(ts: seq<string>): seq<string> {
    if ts == [] then [] else (if IsMark(ts[0]) then [] else [ts[0]]) + LeafTokens(ts[1..])
  }

  lemma {:induction false} LeafTokensAppend(a: seq<string>, b: seq<string>)
    ensures LeafTokens(a + b) == LeafTokens(a) + LeafTokens(b)
  {
    if a == [] {
      assert a + b == b;
    } else {
      assert (a + b)[1..] == a[1..] + b;
      LeafTokensAppend(a[1..], b);
    }
  }

  /** The leaves are the readings of the leaf tokens, in order. */
  predicate ReadsAs(tokens: seq<string>, leaves: seq<LayoutLeaf>) {
    |tokens| == |leaves| && forall i :: 0 <= i < |tokens| ==> ParseLeaf(tokens[i]) == Some(leaves[i])
  }

  lemma CutAround(ts: seq<string>, k: nat)
    requires k < |ts|
    ensures ts == (ts[..k] + [ts[k]]) + ts[k + 1..]
  {}

  lemma MarkIsNoLeaf(t: string)
    requires IsMark(t)
    ensures LeafTokens([t]) == []
  {
    hide IsMark;
    assert [t][1..] == [];
  }

  lemma AroundMark(ts: seq<string>, k: nat)
    requires k < |ts| && IsMark(ts[k])
    ensures LeafTokens(ts) == LeafTokens(ts[..k]) + LeafTokens(ts[k + 1..])
  {
    hide IsMark, LeafTokens;
    CutAround(ts, k);
    MarkIsNoLeaf(ts[k]);
    LeafTokensAppend(ts[..k], [ts[k]]);
    LeafTokensAppend(ts[..k] + [ts[k]], ts[k + 1..]);
  }

  lemma {:induction false} HorizontalLeaves(ts: seq<string>, n: LayoutNode)
    requires DerivesHorizontal(ts, n)
    ensures ReadsAs(LeafTokens(ts), n.Leaves())
    decreases |ts|, 2
  {
    if DerivesVertical(ts, n) {
      VerticalLeaves(ts, n);
    } else {
      var k :| 0 <= k < |ts| && HorizontalAt(ts, k, n);
      AroundMark(ts, k);
      HorizontalLeaves(ts[..k], n.left);
      VerticalLeaves(ts[k + 1..], n.right);
    }
  }

  lemma {:induction false} VerticalLeaves(ts: seq<string>, n: LayoutNode)
    requires DerivesVertical(ts, n)
    ensures ReadsAs(LeafTokens(ts), n.Leaves())
    decreases |ts|, 1
  {
    if DerivesPrimary(ts, n) {
      PrimaryLeaves(ts, n);
    } else {
      var k :| 0 <= k < |ts| && VerticalAt(ts, k, n);
      AroundMark(ts, k);
      VerticalLeaves(ts[..k], n.left);
      PrimaryLeaves(ts[k + 1..], n.right);
    }
  }

  lemma {:induction false} PrimaryLeaves(ts: seq<string>, n: LayoutNode)
    requires DerivesPrimary(ts, n)
    ensures ReadsAs(LeafTokens(ts), n.Leaves())
    decreases |ts|, 0
  {
    if |ts| > 1 {
      var last := |ts| - 1;
      HorizontalLeaves(ts[1..last], n);
      AroundMark(ts, last);
      AroundMark(ts[..last], 0);
      assert ts[..last][1..] == ts[1..last];
      assert LeafTokens(ts[..last][..0]) == [] && LeafTokens(ts[|ts|..]) == [];
    } else {
      assert LeafTokens(ts[1..]) == [];
    }
  }

  /** Parsing loses and reorders nothing: the tree's leaves are the leaf tokens in order, each well formed. */
  lemma ParsedLeaves(ts: seq<string>, n: LayoutNode)
    requires ParseTokens(ts) == Ok(n)
    ensures ReadsAs(LeafTokens(ts), n.Leaves())
    ensures WfTree(n)
  {
    ParserDecidesGrammar(ts, n);
    HorizontalLeaves(ts, n);
    WfTreeLeaves(n);
    forall i | 0 <= i < |n.Leaves()| ensures WfLeaf(n.Leaves()[i]) {
      ParsedLeafIsWf(LeafTokens(ts)[i]);
    }
  }
}
