/** The recursive-descent parser as written: a token list and a mutable index. */
module LayoutParsing {
  import opened Text
  import opened Layout
  import opened LeafToken
  import opened Tokenizer
  import opened Grammar

  /** What `parse_layout_spec` computes. */
  function ParseLayout(text: string): Result<LayoutNode, ParseError> { ParseTokens(Tokens(text)) }

  class LayoutParser {
    const tokens: seq<string>
    var index: nat

    constructor (tokens: seq<string>)
      ensures this.tokens == tokens && index == 0
    {
      this.tokens := tokens;
      index := 0;
    }

    ghost predicate Valid() reads this { index <= |tokens| }

    /** The tokens not consumed yet. */
    ghost function Remaining(): seq<string>
      reads this
      requires Valid()
    {
      tokens[index..]
    }

    /** A step agrees with the parsing function: same node or same error, and the same remaining tokens. */
    ghost predicate Agrees(r: Result<LayoutNode, ParseError>, spec: Result<Parsed, Failure>) reads this {
      && Valid()
      && match spec
         case Err(f) => r == Err(f.error) && Remaining() == f.rest
         case Ok(p) => r == Ok(p.node) && Remaining() == p.rest
    }

    function Peek(): (t: Option<string>)
      reads this
      requires Valid()
      ensures t == Found(Remaining())
    {
      if index < |tokens| then Some(tokens[index]) else None
    }

    method Consume(expected: string) returns (r: Result<(), ParseError>)
      requires Valid()
      modifies this`index
      ensures Valid()
      ensures old(Peek()) == Some(expected) ==> r == Ok(()) && Remaining() == old(Remaining())[1..]
      ensures old(Peek()) != Some(expected) ==> r == Err(Expected(expected, old(Peek()))) && index == old(index)
    {
      if Peek() != Some(expected) {
        return Err(Expected(expected, Peek()));
      }
      index := index + 1;
      return Ok(());
    }

    method Parse() returns (r: Result<LayoutNode, ParseError>)
      requires index == 0
      modifies this`index
      ensures r == ParseTokens(tokens)
    {
      hide ParseHorizontal;
      if tokens == [] {
        return Err(EmptyLayout);
      }
      assert Remaining() == tokens;
      var node := ParseHorizontalStep();
      if node.Err? {
        return node;
      }
      if Peek().Some? {
        return Err(UnexpectedToken(Peek().value));
      }
      return node;
    }

    method ParseHorizontalStep() returns (r: Result<LayoutNode, ParseError>)
      requires Valid()
      modifies this`index
      ensures Agrees(r, ParseHorizontal(old(Remaining())))
      ensures r.Ok? ==> index > old(index)
      decreases |tokens| - index, 2
    {
      hide ParseVertical;
      ghost var spec := ParseHorizontal(Remaining());
      var node := ParseVerticalStep();
      if node.Err? {
        return node;
      }
      while Peek() == Some(";")
        invariant Valid() && node.Ok? && index > old(index)
        invariant MoreHorizontal(node.value, Remaining()) == spec
        decreases |tokens| - index
      {
        var _ := Consume(";");
        var rhs := ParseVerticalStep();
        if rhs.Err? {
          return rhs;
        }
        node := Ok(Split(Horizontal, node.value, rhs.value));
      }
      return node;
    }

    method ParseVerticalStep() returns (r: Result<LayoutNode, ParseError>)
      requires Valid()
      modifies this`index
      ensures Agrees(r, ParseVertical(old(Remaining())))
      ensures r.Ok? ==> index > old(index)
      decreases |tokens| - index, 1
    {
      hide ParsePrimary;
      ghost var spec := ParseVertical(Remaining());
      var node := ParsePrimaryStep();
      if node.Err? {
        return node;
      }
      while Peek() == Some(",")
        invariant Valid() && node.Ok? && index > old(index)
        invariant MoreVertical(node.value, Remaining()) == spec
        decreases |tokens| - index
      {
        var _ := Consume(",");
        var rhs := ParsePrimaryStep();
        if rhs.Err? {
          return rhs;
        }
        node := Ok(Split(Vertical, node.value, rhs.value));
      }
      return node;
    }

    method ParsePrimaryStep() returns (r: Result<LayoutNode, ParseError>)
      requires Valid()
      modifies this`index
      ensures Agrees(r, ParsePrimary(old(Remaining())))
      ensures r.Ok? ==> index > old(index)
      decreases |tokens| - index, 0
    {
      hide ParseHorizontal, ParseLeaf;
      if Peek().None? {
        return Err(UnexpectedEnd);
      }
      var token := Peek().value;
      if token == "(" {
        var _ := Consume("(");
        r := ParseHorizontalStep();
        if r.Err? {
          return;
        }
        var close := Consume(")");
        if close.Err? {
          return Err(close.error);
        }
        return;
      }
      if token == ")" || token == ";" || token == "," {
        return Err(UnexpectedToken(token));
      }
      index := index + 1;
      match ParseLeaf(token)
      case None => r := Err(InvalidLeaf(token));
      case Some(l) => r := Ok(Leaf(l));
    }
  }

  /** `parse_layout_spec`: tokenize, then run the parser. */
  method ParseLayoutSpec(text: string) returns (r: Result<LayoutNode, ParseError>)
    ensures r == ParseLayout(text)
  {
    var tokens := Tokenize(text);
    var parser := new LayoutParser(tokens);
    r := parser.Parse();
  }
}
