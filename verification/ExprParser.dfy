/** Expressions: the recursive-descent parser with precedence levels, and the grammar it
    implements. */
module ExprParser {
  import opened Bytes

  datatype BinaryOp = Or | And | Eq | NotEq | Lt | Gt | LtEq | GtEq | Add | Sub | Mul | Div | Mod
  datatype UnaryOp = Not | Neg

  /** A float literal is a bit pattern, a string literal its source text. */
  datatype Expr =
    | Binary(left: Expr, op: BinaryOp, right: Expr)
    | Unary(prefix: UnaryOp, operand: Expr)
    | Variable(name: string)
    | Unique
    | IntLit(n: int)
    | FloatLit(bits: U64)
    | BoolLit(b: bool)
    | StringLit(s: string)

  /** `Op(Sub)` is the minus sign, unary or binary. */
  datatype Token =
    | Op(op: BinaryOp)
    | Bang
    | Dollar
    | LParen
    | RParen
    | Ident(name: string)
    | Keyword(name: string)
    | Int(n: int)
    | Float(bits: U64)
    | Bool(b: bool)
    | Str(s: string)
    | Other

  /** Binary levels, loosest first; then unary and primary expressions. */
  const UNARY: nat := 6
  const PRIMARY: nat := 7

  function LevelOf(op: BinaryOp): (k: nat)
    ensures k < UNARY
  {
    match op
    case Or => 0
    case And => 1
    case Eq => 2
    case NotEq => 2
    case Lt => 3
    case Gt => 3
    case LtEq => 3
    case GtEq => 3
    case Add => 4
    case Sub => 4
    case Mul => 5
    case Div => 5
    case Mod => 5
  }

  function PrefixOf(t: Token): Option<UnaryOp> {
    match t
    case Bang => Some(Not)
    case Op(Sub) => Some(Neg)
    case _ => None
  }

  // ------------------------------------------------------------------
  // What the parser computes
  // ------------------------------------------------------------------

  type Parsed = Option<(Expr, seq<Token>)>

  predicate Continues(k: nat, ts: seq<Token>) { ts != [] && ts[0].Op? && LevelOf(ts[0].op) == k }

  /** A variable's name: in an interpolation, a keyword too. */
  function NameOf(t: Token, interpolation: bool): Option<string> {
    match t
    case Ident(name) => Some(name)
    case Keyword(name) => if interpolation then Some(name) else None
    case _ => None
  }

  function ParseLevel(k: nat, ts: seq<Token>, interpolation: bool): (p: Parsed)
    requires k <= PRIMARY
    ensures p.Some? ==> |p.value.1| < |ts|
    decreases |ts|, PRIMARY - k, 1
  {
    if k < UNARY then
      var first :- ParseLevel(k + 1, ts, interpolation);
      ParseMore(k, first.0, first.1, interpolation)
    else if k == UNARY then
      if ts != [] && PrefixOf(ts[0]).Some? then
        var inner :- ParseLevel(UNARY, ts[1..], interpolation);
        Some((Unary(PrefixOf(ts[0]).value, inner.0), inner.1))
      else ParseLevel(PRIMARY, ts, interpolation)
    else ParsePrimary(ts, interpolation)
  }

  function ParseMore(k: nat, lhs: Expr, ts: seq<Token>, interpolation: bool): (p: Parsed)
    requires k < UNARY
    ensures p.Some? ==> |p.value.1| <= |ts|
    decreases |ts|, PRIMARY - k, 0
  {
    if Continues(k, ts) then
      var rhs :- ParseLevel(k + 1, ts[1..], interpolation);
      ParseMore(k, Binary(lhs, ts[0].op, rhs.0), rhs.1, interpolation)
    else Some((lhs, ts))
  }

  function ParsePrimary(ts: seq<Token>, interpolation: bool): (p: Parsed)
    ensures p.Some? ==> |p.value.1| < |ts|
    decreases |ts|, 0, 0
  {
    if ts == [] then None
    else
      match ts[0]
      case Dollar =>
        if |ts| < 2 then None
        else
          var name :- NameOf(ts[1], interpolation);
          Some((Variable(name), ts[2..]))
      case Ident(name) =>
        if name == "unique" && interpolation && |ts| > 2 && ts[1] == LParen && ts[2] == RParen then
          Some((Unique, ts[3..]))
        else None
      case Int(n) => Some((IntLit(n), ts[1..]))
      case Float(bits) => Some((FloatLit(bits), ts[1..]))
      case Bool(b) => Some((BoolLit(b), ts[1..]))
      case Str(s) => Some((StringLit(s), ts[1..]))
      case LParen =>
        var inner :- ParseLevel(0, ts[1..], interpolation);
        if inner.1 != [] && inner.1[0] == RParen then Some((inner.0, inner.1[1..])) else None
      case _ => None
  }

  /** `parse_expr_tokens`: an expression and nothing after it. */
  function ParseExpr(ts: seq<Token>, interpolation: bool): Option<Expr> {
    var p :- ParseLevel(0, ts, interpolation);
    if p.1 == [] then Some(p.0) else None
  }

  // ------------------------------------------------------------------
  // The parser, over a cursor
  // ------------------------------------------------------------------

  class Parser {
    const tokens: seq<Token>
    const inInterpolation: bool
    var pos: nat

    constructor (tokens: seq<Token>, inInterpolation: bool)
      ensures this.tokens == tokens && this.inInterpolation == inInterpolation && pos == 0
    {
      this.tokens, this.inInterpolation, pos := tokens, inInterpolation, 0;
    }

    function Left(): seq<Token>
      reads this
    {
      if pos <= |tokens| then tokens[pos..] else []
    }

    predicate Sees(t: Token)
      reads this
    {
      pos < |tokens| && tokens[pos] == t
    }

    /** An error, or the expression read with the cursor after it. */
    ghost predicate Reads(r: Option<Expr>, p: Parsed)
      reads this
    {
      && pos <= |tokens|
      && match p
         case None => r.None?
         case Some(read) => r == Some(read.0) && Left() == read.1
    }

    /** The next tighter level, by `next`. */
    method Level(k: nat) returns (r: Option<Expr>)
      requires k <= PRIMARY && pos <= |tokens|
      modifies this`pos
      ensures Reads(r, ParseLevel(k, old(Left()), inInterpolation))
      decreases |tokens| - pos, PRIMARY - k, 2
    {
      if k < UNARY {
        r := BinaryLevel(k);
      } else if k == UNARY {
        r := UnaryExpr();
      } else {
        r := PrimaryExpr();
      }
    }

    method BinaryLevel(k: nat) returns (r: Option<Expr>)
      requires k < UNARY && pos <= |tokens|
      modifies this`pos
      ensures Reads(r, ParseLevel(k, old(Left()), inInterpolation))
      decreases |tokens| - pos, PRIMARY - k, 0
    {
      hide ParsePrimary, LevelOf, PrefixOf, ParseLevel, ParseMore;
      ghost var p := ParseLevel(k, Left(), inInterpolation);
      LevelOpens(k, Left(), inInterpolation);
      r := Level(k + 1);
      if r.None? { return; }
      var lhs := r.value;
      while pos < |tokens| && tokens[pos].Op? && LevelOf(tokens[pos].op) == k
        invariant old(pos) < pos <= |tokens| && p == ParseMore(k, lhs, Left(), inInterpolation)
        decreases |tokens| - pos
      {
        var op := tokens[pos].op;
        MoreOpens(k, lhs, Left(), inInterpolation);
        assert Left()[1..] == tokens[pos + 1..];
        pos := pos + 1;
        var rhs := Level(k + 1);
        if rhs.None? { return None; }
        lhs := Binary(lhs, op, rhs.value);
      }
      MoreOpens(k, lhs, Left(), inInterpolation);
      r := Some(lhs);
    }

    method UnaryExpr() returns (r: Option<Expr>)
      requires pos <= |tokens|
      modifies this`pos
      ensures Reads(r, ParseLevel(UNARY, old(Left()), inInterpolation))
      decreases |tokens| - pos, PRIMARY - UNARY, 0
    {
      var prefix := if pos < |tokens| then PrefixOf(tokens[pos]) else None;
      if prefix.None? {
        assert ParseLevel(PRIMARY, Left(), inInterpolation) == ParsePrimary(Left(), inInterpolation);
        r := PrimaryExpr();
        return;
      }
      assert Left()[1..] == tokens[pos + 1..];
      pos := pos + 1;
      r := UnaryExpr();
      if r.Some? { r := Some(Unary(prefix.value, r.value)); }
    }

    method PrimaryExpr() returns (r: Option<Expr>)
      requires pos <= |tokens|
      modifies this`pos
      ensures Reads(r, ParsePrimary(old(Left()), inInterpolation))
      decreases |tokens| - pos, 0, 1
    {
      hide ParseLevel, NameOf;
      if pos == |tokens| { return None; }
      ghost var ts := Left();
      assert ts[1..] == tokens[pos + 1..];
      var t := tokens[pos];
      match t
      case Dollar =>
        pos := pos + 1;
        var name := if pos < |tokens| then NameOf(tokens[pos], inInterpolation) else None;
        if name.None? { return None; }
        pos := pos + 1;
        assert ts[2..] == tokens[pos..];
        r := Some(Variable(name.value));
      case Ident(name) =>
        if name == "unique" && inInterpolation && pos + 1 < |tokens| && tokens[pos + 1] == LParen {
          pos := pos + 2;
          if !Sees(RParen) { return None; }
          pos := pos + 1;
          assert ts[3..] == tokens[pos..];
          r := Some(Unique);
        } else {
          r := None;
        }
      case Int(n) =>
        pos, r := pos + 1, Some(IntLit(n));
      case Float(bits) =>
        pos, r := pos + 1, Some(FloatLit(bits));
      case Bool(b) =>
        pos, r := pos + 1, Some(BoolLit(b));
      case Str(s) =>
        pos, r := pos + 1, Some(StringLit(s));
      case LParen =>
        r := Parenthesized();
      case _ =>
        r := None;
    }

    method Parenthesized() returns (r: Option<Expr>)
      requires Sees(LParen)
      modifies this`pos
      ensures Reads(r, ParsePrimary(old(Left()), inInterpolation))
      decreases |tokens| - pos, 0, 0
    {
      hide ParseLevel, NameOf;
      assert Left()[1..] == tokens[pos + 1..];
      pos := pos + 1;
      r := Level(0);
      if r.None? || !Sees(RParen) { return None; }
      assert Left()[1..] == tokens[pos + 1..];
      pos := pos + 1;
    }

    method ParseAll() returns (r: Option<Expr>)
      requires pos == 0
      modifies this`pos
      ensures r == ParseExpr(tokens, inInterpolation)
    {
      assert Left() == tokens;
      r := Level(0);
      if pos < |tokens| { r := None; }
    }
  }

  lemma LevelOpens(k: nat, ts: seq<Token>, interpolation: bool)
    requires k < UNARY
    ensures match ParseLevel(k + 1, ts, interpolation)
            case None => ParseLevel(k, ts, interpolation).None?
            case Some(first) =>
              ParseLevel(k, ts, interpolation) == ParseMore(k, first.0, first.1, interpolation)
  {
  }

  lemma MoreOpens(k: nat, lhs: Expr, ts: seq<Token>, interpolation: bool)
    requires k < UNARY
    ensures !Continues(k, ts) ==> ParseMore(k, lhs, ts, interpolation) == Some((lhs, ts))
    ensures Continues(k, ts) ==>
              match ParseLevel(k + 1, ts[1..], interpolation)
              case None => ParseMore(k, lhs, ts, interpolation).None?
              case Some(rhs) =>
                ParseMore(k, lhs, ts, interpolation)
                == ParseMore(k, Binary(lhs, ts[0].op, rhs.0), rhs.1, interpolation)
  {
  }

  // ------------------------------------------------------------------
  // The grammar
  // ------------------------------------------------------------------

  /** A derivation: a binary level is one operand and the operators and operands after it. */
  datatype Tree =
    | Chain(first: Tree, rest: Links)
    | Prefixed(prefix: UnaryOp, operand: Tree)
    | Paren(inner: Tree)
    | Leaf(tokens: seq<Token>)

  datatype Links = Done | Link(op: BinaryOp, operand: Tree, rest: Links)

  /** The terminals of a primary expression other than parentheses, and what they denote. */
  function LeafExpr(ts: seq<Token>, interpolation: bool): Option<Expr> {
    if |ts| == 1 then
      match ts[0]
      case Int(n) => Some(IntLit(n))
      case Float(bits) => Some(FloatLit(bits))
      case Bool(b) => Some(BoolLit(b))
      case Str(s) => Some(StringLit(s))
      case _ => None
    else if |ts| == 2 && ts[0] == Dollar && (ts[1].Ident? || (interpolation && ts[1].Keyword?)) then
      Some(Variable(ts[1].name))
    else if interpolation && ts == [Ident("unique"), LParen, RParen] then Some(Unique)
    else None
  }

  /** The operators of `or_expr`, `and_expr` and so on, down to `multiplicative_expr`. */
  function Operators(k: nat): set<BinaryOp>
    requires k < UNARY
  {
    match k
    case 0 => {Or}
    case 1 => {And}
    case 2 => {Eq, NotEq}
    case 3 => {Lt, Gt, LtEq, GtEq}
    case 4 => {Add, Sub}
    case _ => {Mul, Div, Mod}
  }

  /** The tree derives from the nonterminal of level `k`. */
  predicate Derives(k: nat, t: Tree, interpolation: bool)
    requires k <= PRIMARY
    decreases t, PRIMARY - k
  {
    if k < UNARY then t.Chain? && Derives(k + 1, t.first, interpolation) && DerivesLinks(k, t.rest, interpolation)
    else if k == UNARY && t.Prefixed? then Derives(UNARY, t.operand, interpolation)
    else if k == UNARY then Derives(PRIMARY, t, interpolation)
    else if t.Paren? then Derives(0, t.inner, interpolation)
    else t.Leaf? && LeafExpr(t.tokens, interpolation).Some?
  }

  predicate DerivesLinks(k: nat, l: Links, interpolation: bool)
    requires k < UNARY
    decreases l, PRIMARY - k
  {
    l.Link? ==>
      l.op in Operators(k) && Derives(k + 1, l.operand, interpolation) && DerivesLinks(k, l.rest, interpolation)
  }

  function PrefixToken(op: UnaryOp): Token { if op.Not? then Bang else Op(Sub) }

  function Yield(t: Tree): seq<Token> {
    match t
    case Chain(first, rest) => Yield(first) + YieldLinks(rest)
    case Prefixed(op, operand) => [PrefixToken(op)] + Yield(operand)
    case Paren(inner) => [LParen] + Yield(inner) + [RParen]
    case Leaf(ts) => ts
  }

  function YieldLinks(l: Links): seq<Token> {
    match l
    case Done => []
    case Link(op, operand, rest) => [Op(op)] + Yield(operand) + YieldLinks(rest)
  }

  /** What a derivation means: chains associate to the left. */
  function Meaning(t: Tree, interpolation: bool): Expr {
    match t
    case Chain(first, rest) => Fold(Meaning(first, interpolation), rest, interpolation)
    case Prefixed(op, operand) => Unary(op, Meaning(operand, interpolation))
    case Paren(inner) => Meaning(inner, interpolation)
    case Leaf(ts) => (match LeafExpr(ts, interpolation) case Some(e) => e case None => Unique)
  }

  function Fold(lhs: Expr, l: Links, interpolation: bool): Expr
    decreases l
  {
    match l
    case Done => lhs
    case Link(op, operand, rest) => Fold(Binary(lhs, op, Meaning(operand, interpolation)), rest, interpolation)
  }

  // ------------------------------------------------------------------
  // The parser accepts exactly the grammar
  // ------------------------------------------------------------------

  /** `ts` splits into the yield of a derivation that means `e`, and `rest`. */
  ghost predicate Explains(k: nat, t: Tree, e: Expr, ts: seq<Token>, rest: seq<Token>, interpolation: bool)
    requires k <= PRIMARY
  {
    Derives(k, t, interpolation) && Meaning(t, interpolation) == e && Yield(t) + rest == ts
  }

  lemma LevelHolds(op: BinaryOp, k: nat)
    requires k < UNARY
    ensures op in Operators(k) <==> LevelOf(op) == k
  {
  }

  /** What a level reads is derived from its nonterminal. */
  lemma {:induction false} LevelSound(k: nat, ts: seq<Token>, interpolation: bool) returns (t: Tree)
    requires k <= PRIMARY && ParseLevel(k, ts, interpolation).Some?
    ensures var p := ParseLevel(k, ts, interpolation).value; Explains(k, t, p.0, ts, p.1, interpolation)
    decreases |ts|, PRIMARY - k, 1
  {
    hide LeafExpr, ParsePrimary, NameOf, LevelOf;
    var p := ParseLevel(k, ts, interpolation).value;
    if k < UNARY {
      var first := ParseLevel(k + 1, ts, interpolation).value;
      var head := LevelSound(k + 1, ts, interpolation);
      var links := MoreSound(k, first.0, first.1, interpolation);
      t := Chain(head, links);
      ChainExplains(k, head, links, first.0, ts, p.1, interpolation);
    } else if k == UNARY && ts != [] && PrefixOf(ts[0]).Some? {
      var inner := LevelSound(UNARY, ts[1..], interpolation);
      t := Prefixed(PrefixOf(ts[0]).value, inner);
      PrefixExplains(PrefixOf(ts[0]).value, inner, ts, p.1, interpolation);
    } else if k == UNARY {
      t := LevelSound(PRIMARY, ts, interpolation);
      PrimaryExplains(t, ts, p.1, interpolation);
    } else {
      t := PrimarySound(ts, interpolation);
    }
  }

  lemma ChainExplains(k: nat, head: Tree, links: Links, lhs: Expr, ts: seq<Token>, rest: seq<Token>,
                      interpolation: bool)
    requires k < UNARY && Explains(k + 1, head, lhs, ts, YieldLinks(links) + rest, interpolation)
             && DerivesLinks(k, links, interpolation)
    ensures Explains(k, Chain(head, links), Fold(lhs, links, interpolation), ts, rest, interpolation)
  {
    hide LevelOf;
    assert Yield(Chain(head, links)) + rest == Yield(head) + (YieldLinks(links) + rest);
  }

  lemma PrefixExplains(op: UnaryOp, inner: Tree, ts: seq<Token>, rest: seq<Token>, interpolation: bool)
    requires ts != [] && ts[0] == PrefixToken(op) && Derives(UNARY, inner, interpolation)
             && Yield(inner) + rest == ts[1..]
    ensures Explains(UNARY, Prefixed(op, inner), Unary(op, Meaning(inner, interpolation)), ts, rest, interpolation)
  {
    assert Yield(Prefixed(op, inner)) + rest == [ts[0]] + (Yield(inner) + rest);
  }

  lemma PrimaryExplains(t: Tree, ts: seq<Token>, rest: seq<Token>, interpolation: bool)
    requires Explains(PRIMARY, t, Meaning(t, interpolation), ts, rest, interpolation)
    ensures Explains(UNARY, t, Meaning(t, interpolation), ts, rest, interpolation)
  {
  }

  lemma {:induction false} MoreSound(k: nat, lhs: Expr, ts: seq<Token>, interpolation: bool) returns (l: Links)
    requires k < UNARY && ParseMore(k, lhs, ts, interpolation).Some?
    ensures DerivesLinks(k, l, interpolation)
    ensures var p := ParseMore(k, lhs, ts, interpolation).value;
            Fold(lhs, l, interpolation) == p.0 && YieldLinks(l) + p.1 == ts
    decreases |ts|, PRIMARY - k, 0
  {
    hide LeafExpr, ParsePrimary, NameOf, LevelOf, PrefixOf, ParseLevel, Derives, Meaning, Yield;
    if Continues(k, ts) {
      var rhs := ParseLevel(k + 1, ts[1..], interpolation).value;
      var operand := LevelSound(k + 1, ts[1..], interpolation);
      var rest := MoreSound(k, Binary(lhs, ts[0].op, rhs.0), rhs.1, interpolation);
      l := Link(ts[0].op, operand, rest);
      LevelHolds(ts[0].op, k);
      var p := ParseMore(k, lhs, ts, interpolation).value;
      assert YieldLinks(l) + p.1 == [ts[0]] + (Yield(operand) + (YieldLinks(rest) + p.1));
    } else {
      l := Done;
    }
  }

  lemma {:induction false} PrimarySound(ts: seq<Token>, interpolation: bool) returns (t: Tree)
    requires ParsePrimary(ts, interpolation).Some?
    ensures var p := ParsePrimary(ts, interpolation).value; Explains(PRIMARY, t, p.0, ts, p.1, interpolation)
    decreases |ts|, 0, 0
  {
    hide ParseLevel;
    var p := ParsePrimary(ts, interpolation).value;
    if ts[0] == LParen {
      var inner := LevelSound(0, ts[1..], interpolation);
      t := Paren(inner);
      assert Yield(t) + p.1 == [LParen] + (Yield(inner) + ([RParen] + p.1));
    } else {
      t := Leaf(ts[..|ts| - |p.1|]);
    }
  }

  /** The tokens after an expression of level `k` cannot be taken for more of it. */
  predicate Follows(k: nat, rest: seq<Token>) { rest == [] || !rest[0].Op? || LevelOf(rest[0].op) < k }

  /** Every derivation is read back with its meaning, up to its end. */
  lemma {:induction false} LevelComplete(k: nat, t: Tree, rest: seq<Token>, interpolation: bool)
    requires k <= PRIMARY && Derives(k, t, interpolation) && Follows(k, rest)
    ensures ParseLevel(k, Yield(t) + rest, interpolation) == Some((Meaning(t, interpolation), rest))
    decreases t, PRIMARY - k, 1
  {
    hide LeafExpr, ParsePrimary, NameOf, LevelOf;
    if k < UNARY {
      var more := YieldLinks(t.rest) + rest;
      assert Yield(t) + rest == Yield(t.first) + more;
      MoreComplete(k, Meaning(t.first, interpolation), t.rest, rest, interpolation);
      LevelComplete(k + 1, t.first, more, interpolation);
    } else if k == UNARY && t.Prefixed? {
      var ts := Yield(t.operand) + rest;
      assert Yield(t) + rest == [PrefixToken(t.prefix)] + ts;
      LevelComplete(UNARY, t.operand, rest, interpolation);
      PrefixComplete(t.prefix, ts, interpolation);
    } else if k == UNARY {
      LevelComplete(PRIMARY, t, rest, interpolation);
      PrimaryStart(t, rest, interpolation);
    } else {
      PrimaryComplete(t, rest, interpolation);
    }
  }

  lemma {:induction false} PrimaryComplete(t: Tree, rest: seq<Token>, interpolation: bool)
    requires Derives(PRIMARY, t, interpolation)
    ensures ParsePrimary(Yield(t) + rest, interpolation) == Some((Meaning(t, interpolation), rest))
    decreases t, 0, 0
  {
    hide LeafExpr, ParsePrimary, NameOf, LevelOf, ParseLevel;
    if t.Paren? {
      var more := [RParen] + rest;
      assert Yield(t) + rest == [LParen] + (Yield(t.inner) + more);
      assert more[1..] == rest;
      LevelComplete(0, t.inner, more, interpolation);
      ParenComplete(Yield(t.inner) + more, interpolation);
    } else {
      LeafComplete(t.tokens, rest, interpolation);
    }
  }

  lemma PrefixComplete(op: UnaryOp, ts: seq<Token>, interpolation: bool)
    ensures var p := ParseLevel(UNARY, ts, interpolation);
            p.Some? ==>
              ParseLevel(UNARY, [PrefixToken(op)] + ts, interpolation) == Some((Unary(op, p.value.0), p.value.1))
  {
    hide ParsePrimary, LevelOf;
    assert ([PrefixToken(op)] + ts)[1..] == ts;
  }

  lemma ParenComplete(ts: seq<Token>, interpolation: bool)
    ensures var p := ParseLevel(0, ts, interpolation);
            p.Some? && p.value.1 != [] && p.value.1[0] == RParen
            ==> ParsePrimary([LParen] + ts, interpolation) == Some((p.value.0, p.value.1[1..]))
  {
    hide ParseLevel;
    assert ([LParen] + ts)[1..] == ts;
  }

  lemma LeafComplete(leaf: seq<Token>, rest: seq<Token>, interpolation: bool)
    requires LeafExpr(leaf, interpolation).Some?
    ensures ParsePrimary(leaf + rest, interpolation) == Some((LeafExpr(leaf, interpolation).value, rest))
  {
    hide ParseLevel;
    assert (leaf + rest)[|leaf|..] == rest;
  }

  lemma PrimaryStart(t: Tree, rest: seq<Token>, interpolation: bool)
    requires Derives(PRIMARY, t, interpolation)
    ensures Yield(t) != [] && PrefixOf((Yield(t) + rest)[0]).None?
  {
  }

  lemma {:induction false} MoreComplete(k: nat, lhs: Expr, l: Links, rest: seq<Token>, interpolation: bool)
    requires k < UNARY && DerivesLinks(k, l, interpolation) && Follows(k, rest)
    ensures ParseMore(k, lhs, YieldLinks(l) + rest, interpolation) == Some((Fold(lhs, l, interpolation), rest))
    ensures Follows(k + 1, YieldLinks(l) + rest)
    decreases l, PRIMARY - k, 1
  {
    hide LeafExpr, ParsePrimary, NameOf, ParseLevel, Derives, Meaning, Yield;
    match l
    case Done => assert YieldLinks(l) + rest == rest;
    case Link(op, operand, links) =>
      var more := YieldLinks(links) + rest;
      var ts := YieldLinks(l) + rest;
      assert ts[1..] == Yield(operand) + more;
      var next := Binary(lhs, op, Meaning(operand, interpolation));
      MoreComplete(k, next, links, rest, interpolation);
      LevelComplete(k + 1, operand, more, interpolation);
  }

  /** A token list parses to an expression exactly when some derivation yields those tokens and
      means that expression. */
  lemma AcceptsGrammar(ts: seq<Token>, e: Expr, interpolation: bool)
    ensures ParseExpr(ts, interpolation) == Some(e) <==>
            exists t :: Derives(0, t, interpolation) && Yield(t) == ts && Meaning(t, interpolation) == e
  {
    hide ParseLevel, Derives;
    if ParseExpr(ts, interpolation) == Some(e) {
      var t := LevelSound(0, ts, interpolation);
      assert Yield(t) + [] == Yield(t);
    }
    if t :| Derives(0, t, interpolation) && Yield(t) == ts && Meaning(t, interpolation) == e {
      LevelComplete(0, t, [], interpolation);
      assert Yield(t) + [] == ts;
    }
  }

  /** Derivations are unambiguous: the tokens settle the meaning. */
  lemma Unambiguous(a: Tree, b: Tree, interpolation: bool)
    requires Derives(0, a, interpolation) && Derives(0, b, interpolation) && Yield(a) == Yield(b)
    ensures Meaning(a, interpolation) == Meaning(b, interpolation)
  {
    AcceptsGrammar(Yield(a), Meaning(a, interpolation), interpolation);
    AcceptsGrammar(Yield(b), Meaning(b, interpolation), interpolation);
  }

  // ------------------------------------------------------------------
  // Precedence, operator by operator
  // ------------------------------------------------------------------

  /** A binary operator's row of the documented table. Row 1 is the prefixes. */
  function Row(op: BinaryOp): nat {
    if op in {Mul, Div, Mod} then 2
    else if op in {Add, Sub} then 3
    else if op in {Lt, Gt, LtEq, GtEq} then 4
    else if op in {Eq, NotEq} then 5
    else if op == And then 6
    else 7
  }

  lemma RowIsLevel(op: BinaryOp)
    ensures Row(op) == 7 - LevelOf(op)
  {
  }

  /** The same derivation, from a looser nonterminal. */
  lemma {:induction false} Loosened(t: Tree, from: nat, k: nat, interpolation: bool) returns (u: Tree)
    requires k <= from <= PRIMARY && Derives(from, t, interpolation)
    ensures Derives(k, u, interpolation) && Yield(u) == Yield(t)
    ensures Meaning(u, interpolation) == Meaning(t, interpolation)
    decreases from - k
  {
    if k == from {
      u := t;
    } else {
      var v := Loosened(t, from, k + 1, interpolation);
      u := if k == UNARY then v else Chain(v, Done);
    }
  }

  /** Two operands and an operator, as a derivation. */
  lemma Joined(a: Tree, op: BinaryOp, b: Tree, interpolation: bool) returns (t: Tree)
    requires Derives(LevelOf(op), a, interpolation) && Derives(LevelOf(op) + 1, b, interpolation)
    ensures Derives(LevelOf(op), t, interpolation) && Yield(t) == Yield(a) + [Op(op)] + Yield(b)
    ensures Meaning(t, interpolation) == Binary(Meaning(a, interpolation), op, Meaning(b, interpolation))
  {
    hide LevelOf;
    var k := LevelOf(op);
    t := Chain(a.first, Extend(a.rest, op, b));
    LevelHolds(op, k);
    ExtendFacts(a.rest, k, Meaning(a.first, interpolation), op, b, interpolation);
  }

  /** Of two operators between three primary expressions, the second takes the operand between them
      exactly when its row is above the first's; otherwise the first does. */
  lemma Precedence(a: Tree, op1: BinaryOp, b: Tree, op2: BinaryOp, c: Tree, interpolation: bool)
    requires Derives(PRIMARY, a, interpolation) && Derives(PRIMARY, b, interpolation)
    requires Derives(PRIMARY, c, interpolation)
    ensures var x, y, z := Meaning(a, interpolation), Meaning(b, interpolation), Meaning(c, interpolation);
            ParseExpr(Yield(a) + [Op(op1)] + Yield(b) + [Op(op2)] + Yield(c), interpolation)
            == Some(if Row(op2) < Row(op1) then Binary(x, op1, Binary(y, op2, z))
                    else Binary(Binary(x, op1, y), op2, z))
  {
    RowIsLevel(op1);
    RowIsLevel(op2);
    hide LevelOf, Row, Derives, Meaning, Yield, ParseExpr;
    if LevelOf(op2) > LevelOf(op1) {
      var t := GroupRight(a, op1, b, op2, c, interpolation);
      AcceptsGrammar(Yield(t), Meaning(t, interpolation), interpolation);
    } else {
      var t := GroupLeft(a, op1, b, op2, c, interpolation);
      AcceptsGrammar(Yield(t), Meaning(t, interpolation), interpolation);
    }
  }

  lemma GroupRight(a: Tree, op1: BinaryOp, b: Tree, op2: BinaryOp, c: Tree, interpolation: bool) returns (t: Tree)
    requires Derives(PRIMARY, a, interpolation) && Derives(PRIMARY, b, interpolation)
    requires Derives(PRIMARY, c, interpolation)
    requires LevelOf(op2) > LevelOf(op1)
    ensures Derives(0, t, interpolation) && Yield(t) == Yield(a) + [Op(op1)] + Yield(b) + [Op(op2)] + Yield(c)
    ensures Meaning(t, interpolation) ==
            Binary(Meaning(a, interpolation), op1, Binary(Meaning(b, interpolation), op2, Meaning(c, interpolation)))
  {
    hide LevelOf, Derives, Meaning, Yield;
    var first := Loosened(b, PRIMARY, LevelOf(op2), interpolation);
    var second := Loosened(c, PRIMARY, LevelOf(op2) + 1, interpolation);
    var right := Joined(first, op2, second, interpolation);
    right := Loosened(right, LevelOf(op2), LevelOf(op1) + 1, interpolation);
    var left := Loosened(a, PRIMARY, LevelOf(op1), interpolation);
    t := Joined(left, op1, right, interpolation);
    t := Loosened(t, LevelOf(op1), 0, interpolation);
  }

  lemma GroupLeft(a: Tree, op1: BinaryOp, b: Tree, op2: BinaryOp, c: Tree, interpolation: bool) returns (t: Tree)
    requires Derives(PRIMARY, a, interpolation) && Derives(PRIMARY, b, interpolation)
    requires Derives(PRIMARY, c, interpolation)
    requires LevelOf(op2) <= LevelOf(op1)
    ensures Derives(0, t, interpolation) && Yield(t) == Yield(a) + [Op(op1)] + Yield(b) + [Op(op2)] + Yield(c)
    ensures Meaning(t, interpolation) ==
            Binary(Binary(Meaning(a, interpolation), op1, Meaning(b, interpolation)), op2, Meaning(c, interpolation))
  {
    hide LevelOf, Derives, Meaning, Yield;
    var first := Loosened(a, PRIMARY, LevelOf(op1), interpolation);
    var second := Loosened(b, PRIMARY, LevelOf(op1) + 1, interpolation);
    var left := Joined(first, op1, second, interpolation);
    left := Loosened(left, LevelOf(op1), LevelOf(op2), interpolation);
    var right := Loosened(c, PRIMARY, LevelOf(op2) + 1, interpolation);
    t := Joined(left, op2, right, interpolation);
    t := Loosened(t, LevelOf(op2), 0, interpolation);
  }

  /** A prefix takes the primary expression after it before any binary operator does. */
  lemma PrefixPrecedence(a: Tree, op: BinaryOp, b: Tree, interpolation: bool)
    requires Derives(PRIMARY, a, interpolation) && Derives(PRIMARY, b, interpolation)
    ensures var x, y := Meaning(a, interpolation), Meaning(b, interpolation);
            && ParseExpr([Bang] + Yield(a) + [Op(op)] + Yield(b), interpolation)
               == Some(Binary(Unary(Not, x), op, y))
            && ParseExpr([Op(Sub)] + Yield(a) + [Op(op)] + Yield(b), interpolation)
               == Some(Binary(Unary(Neg, x), op, y))
  {
    var not := PrefixedTree(Not, a, PRIMARY, interpolation);
    var neg := PrefixedTree(Neg, a, PRIMARY, interpolation);
    hide Derives, Meaning, Yield, LevelOf;
    var right := Loosened(b, PRIMARY, LevelOf(op) + 1, interpolation);
    PrefixedFirst(not, op, right, interpolation);
    PrefixedFirst(neg, op, right, interpolation);
  }

  /** Prefixes apply from the right. */
  lemma PrefixesNest(a: Tree, interpolation: bool)
    requires Derives(PRIMARY, a, interpolation)
    ensures var x := Meaning(a, interpolation);
            && ParseExpr([Op(Sub), Bang] + Yield(a), interpolation) == Some(Unary(Neg, Unary(Not, x)))
            && ParseExpr([Bang, Op(Sub)] + Yield(a), interpolation) == Some(Unary(Not, Unary(Neg, x)))
  {
    var not := PrefixedTree(Not, a, PRIMARY, interpolation);
    var neg := PrefixedTree(Neg, a, PRIMARY, interpolation);
    var negNot := PrefixedTree(Neg, not, UNARY, interpolation);
    var notNeg := PrefixedTree(Not, neg, UNARY, interpolation);
    hide Derives, Meaning, Yield;
    negNot := Loosened(negNot, UNARY, 0, interpolation);
    notNeg := Loosened(notNeg, UNARY, 0, interpolation);
    assert [Op(Sub)] + ([Bang] + Yield(a)) == [Op(Sub), Bang] + Yield(a);
    assert [Bang] + ([Op(Sub)] + Yield(a)) == [Bang, Op(Sub)] + Yield(a);
    AcceptsGrammar(Yield(negNot), Meaning(negNot, interpolation), interpolation);
    AcceptsGrammar(Yield(notNeg), Meaning(notNeg, interpolation), interpolation);
  }

  lemma PrefixedTree(op: UnaryOp, a: Tree, k: nat, interpolation: bool) returns (t: Tree)
    requires UNARY <= k <= PRIMARY && Derives(k, a, interpolation)
    ensures Derives(UNARY, t, interpolation) && Yield(t) == [if op.Not? then Bang else Op(Sub)] + Yield(a)
    ensures Meaning(t, interpolation) == Unary(op, Meaning(a, interpolation))
  {
    var lone := Loosened(a, k, UNARY, interpolation);
    t := Prefixed(op, lone);
  }

  lemma PrefixedFirst(a: Tree, op: BinaryOp, b: Tree, interpolation: bool)
    requires Derives(UNARY, a, interpolation) && Derives(LevelOf(op) + 1, b, interpolation)
    ensures ParseExpr(Yield(a) + [Op(op)] + Yield(b), interpolation)
            == Some(Binary(Meaning(a, interpolation), op, Meaning(b, interpolation)))
  {
    hide LevelOf, Derives, Meaning, Yield;
    var left := Loosened(a, UNARY, LevelOf(op), interpolation);
    var t := Joined(left, op, b, interpolation);
    t := Loosened(t, LevelOf(op), 0, interpolation);
    AcceptsGrammar(Yield(t), Meaning(t, interpolation), interpolation);
  }

  // ------------------------------------------------------------------
  // Printing with as few parentheses as possible
  // ------------------------------------------------------------------

  function Keywords(): set<string> {
    {
      "import", "var", "faker", "relation", "anonymize", "exclude_data", "ignore_table", "ignore_relation", "aggregate",
      "get", "preserve", "set", "after", "root", "where", "order", "by", "limit", "full", "exclude", "root_only",
      "match",
      "when", "null", "string", "int", "float", "bool", "asc", "desc"
    }
  }

  /** As the lexer makes them: a keyword is not an identifier. */
  predicate Lexed(ts: seq<Token>) {
    forall t :: t in ts ==> (t.Ident? ==> t.name !in Keywords()) && (t.Keyword? ==> t.name in Keywords())
  }

  function LevelOfExpr(e: Expr): (k: nat)
    ensures k <= PRIMARY
  {
    match e
    case Binary(_, op, _) => LevelOf(op)
    case Unary(_, _) => UNARY
    case _ => PRIMARY
  }

  function LeafTokens(e: Expr): seq<Token> {
    match e
    case Variable(name) => [Dollar, if name in Keywords() then Keyword(name) else Ident(name)]
    case IntLit(n) => [Int(n)]
    case FloatLit(bits) => [Float(bits)]
    case BoolLit(b) => [Bool(b)]
    case StringLit(s) => [Str(s)]
    case _ => [Ident("unique"), LParen, RParen]
  }

  function PrintBare(e: Expr): seq<Token>
    decreases e, 0
  {
    match e
    case Binary(l, op, r) => Print(l, LevelOf(op)) + [Op(op)] + Print(r, LevelOf(op) + 1)
    case Unary(op, operand) => [PrefixToken(op)] + Print(operand, UNARY)
    case _ => LeafTokens(e)
  }

  /** An expression where level `k` is expected. */
  function Print(e: Expr, k: nat): seq<Token>
    decreases e, 1
  {
    if LevelOfExpr(e) < k then [LParen] + PrintBare(e) + [RParen] else PrintBare(e)
  }

  /** What a parser in this mode can produce. */
  predicate Printable(e: Expr, interpolation: bool) {
    match e
    case Binary(l, _, r) => Printable(l, interpolation) && Printable(r, interpolation)
    case Unary(_, operand) => Printable(operand, interpolation)
    case Variable(name) => interpolation || name !in Keywords()
    case Unique => interpolation
    case _ => true
  }

  function Extend(l: Links, op: BinaryOp, t: Tree): Links {
    match l
    case Done => Link(op, t, Done)
    case Link(o, operand, rest) => Link(o, operand, Extend(rest, op, t))
  }

  lemma {:induction false} ExtendFacts(l: Links, k: nat, lhs: Expr, op: BinaryOp, t: Tree, interpolation: bool)
    requires k < UNARY && DerivesLinks(k, l, interpolation) && LevelOf(op) == k && Derives(k + 1, t, interpolation)
    ensures DerivesLinks(k, Extend(l, op, t), interpolation)
    ensures YieldLinks(Extend(l, op, t)) == YieldLinks(l) + [Op(op)] + Yield(t)
    ensures Fold(lhs, Extend(l, op, t), interpolation)
            == Binary(Fold(lhs, l, interpolation), op, Meaning(t, interpolation))
    decreases l
  {
    hide Derives, Meaning, Yield;
    match l
    case Done =>
    case Link(o, operand, rest) =>
      ExtendFacts(rest, k, Binary(lhs, o, Meaning(operand, interpolation)), op, t, interpolation);
  }

  /** A printed expression has a derivation that means it. */
  lemma {:induction false} PrintDerives(e: Expr, k: nat, interpolation: bool) returns (t: Tree)
    requires k <= PRIMARY && Printable(e, interpolation)
    ensures Derives(k, t, interpolation) && Yield(t) == Print(e, k) && Meaning(t, interpolation) == e
    decreases e, if k > LevelOfExpr(e) then 1 else 0, PRIMARY - k
  {
    hide LeafTokens, LeafExpr, PrintBare, Print;
    PrintAt(e, k);
    if k < UNARY && e.Binary? && LevelOf(e.op) == k {
      var left := PrintDerives(e.left, k, interpolation);
      var right := PrintDerives(e.right, k + 1, interpolation);
      t := Chain(left.first, Extend(left.rest, e.op, right));
      ExtendFacts(left.rest, k, Meaning(left.first, interpolation), e.op, right, interpolation);
    } else if k < UNARY {
      var first := PrintDerives(e, k + 1, interpolation);
      t := Chain(first, Done);
    } else if k == UNARY && e.Unary? {
      var operand := PrintDerives(e.operand, UNARY, interpolation);
      t := Prefixed(e.prefix, operand);
    } else if k == UNARY {
      t := PrintDerives(e, PRIMARY, interpolation);
    } else if e.Binary? || e.Unary? {
      var inner := PrintDerives(e, 0, interpolation);
      t := Paren(inner);
    } else {
      t := Leaf(LeafTokens(e));
      LeafPrints(e, interpolation);
    }
  }

  lemma LeafPrints(e: Expr, interpolation: bool)
    requires Printable(e, interpolation) && !e.Binary? && !e.Unary?
    ensures LeafExpr(LeafTokens(e), interpolation) == Some(e)
  {
    hide Keywords;
  }

  /** The printing at a level that is not the expression's own is that of the next. */
  lemma PrintAt(e: Expr, k: nat)
    requires k <= PRIMARY
    ensures k < PRIMARY && LevelOfExpr(e) != k ==> Print(e, k) == Print(e, k + 1)
    ensures k == PRIMARY && LevelOfExpr(e) < k ==> Print(e, k) == [LParen] + Print(e, 0) + [RParen]
    ensures e.Binary? && LevelOf(e.op) == k ==> Print(e, k) == Print(e.left, k) + [Op(e.op)] + Print(e.right, k + 1)
    ensures e.Unary? && k == UNARY ==> Print(e, k) == [PrefixToken(e.prefix)] + Print(e.operand, UNARY)
    ensures LevelOfExpr(e) == PRIMARY ==> Print(e, k) == LeafTokens(e)
  {
    hide LeafTokens;
  }

  /** Parsing a printed expression gives it back: the precedence and the associativity are those
      of the grammar. */
  lemma PrintParses(e: Expr, interpolation: bool)
    requires Printable(e, interpolation)
    ensures ParseExpr(Print(e, 0), interpolation) == Some(e)
  {
    hide *;
    var t := PrintDerives(e, 0, interpolation);
    AcceptsGrammar(Print(e, 0), e, interpolation);
  }

  /** No derivation of an expression is shorter than its printing. */
  lemma {:induction false} PrintShortest(t: Tree, k: nat, interpolation: bool)
    requires k <= PRIMARY && Derives(k, t, interpolation)
    ensures |Print(Meaning(t, interpolation), k)| <= |Yield(t)|
    decreases t, PRIMARY - k
  {
    hide Print, PrintBare, LeafExpr, LeafTokens, LevelOfExpr;
    if k < UNARY {
      var first := Meaning(t.first, interpolation);
      PrintShortest(t.first, k + 1, interpolation);
      PrintLooser(first, k);
      LinksShortest(t.rest, k, first, |Yield(t.first)|, interpolation);
    } else if k == UNARY && t.Prefixed? {
      PrintShortest(t.operand, UNARY, interpolation);
      PrintPrefix(t.prefix, Meaning(t.operand, interpolation));
    } else if k == UNARY {
      PrintShortest(t, PRIMARY, interpolation);
      PrintLooser(Meaning(t, interpolation), UNARY);
    } else if t.Paren? {
      PrintShortest(t.inner, 0, interpolation);
      PrintParen(Meaning(t.inner, interpolation));
    } else {
      LeafShortest(t.tokens, interpolation);
    }
  }

  lemma PrintLooser(e: Expr, k: nat)
    requires k < PRIMARY
    ensures |Print(e, k)| <= |Print(e, k + 1)|
  {
    hide PrintBare;
  }

  lemma PrintPrefix(op: UnaryOp, e: Expr)
    ensures |Print(Unary(op, e), UNARY)| == 1 + |Print(e, UNARY)|
  {
    PrintAt(Unary(op, e), UNARY);
  }

  lemma PrintParen(e: Expr)
    ensures |Print(e, PRIMARY)| <= 2 + |Print(e, 0)|
  {
    hide PrintBare;
  }

  lemma PrintBinary(l: Expr, op: BinaryOp, r: Expr)
    ensures |Print(Binary(l, op, r), LevelOf(op))| == |Print(l, LevelOf(op))| + 1 + |Print(r, LevelOf(op) + 1)|
  {
    hide LevelOf;
    PrintAt(Binary(l, op, r), LevelOf(op));
  }

  lemma LeafShortest(ts: seq<Token>, interpolation: bool)
    requires LeafExpr(ts, interpolation).Some?
    ensures |Print(LeafExpr(ts, interpolation).value, PRIMARY)| == |ts|
  {
    hide Keywords;
  }

  lemma {:induction false} LinksShortest(l: Links, k: nat, lhs: Expr, n: nat, interpolation: bool)
    requires k < UNARY && DerivesLinks(k, l, interpolation) && |Print(lhs, k)| <= n
    ensures |Print(Fold(lhs, l, interpolation), k)| <= n + |YieldLinks(l)|
    decreases l, PRIMARY - k
  {
    match l
    case Done =>
    case Link(op, operand, rest) =>
      hide Print, LevelOf;
      PrintShortest(operand, k + 1, interpolation);
      var next := Binary(lhs, op, Meaning(operand, interpolation));
      PrintBinary(lhs, op, Meaning(operand, interpolation));
      LinksShortest(rest, k, next, n + 1 + |Yield(operand)|, interpolation);
  }

  lemma {:induction false} MeaningPrintable(t: Tree, k: nat, interpolation: bool)
    requires k <= PRIMARY && Derives(k, t, interpolation) && Lexed(Yield(t))
    ensures Printable(Meaning(t, interpolation), interpolation)
    decreases t, PRIMARY - k
  {
    if k < UNARY {
      MeaningPrintable(t.first, k + 1, interpolation);
      LinksPrintable(t.rest, k, Meaning(t.first, interpolation), interpolation);
    } else if k == UNARY && t.Prefixed? {
      MeaningPrintable(t.operand, UNARY, interpolation);
    } else if k == UNARY {
      MeaningPrintable(t, PRIMARY, interpolation);
    } else if t.Paren? {
      MeaningPrintable(t.inner, 0, interpolation);
    }
  }

  lemma {:induction false} LinksPrintable(l: Links, k: nat, lhs: Expr, interpolation: bool)
    requires k < UNARY && DerivesLinks(k, l, interpolation) && Lexed(YieldLinks(l)) && Printable(lhs, interpolation)
    ensures Printable(Fold(lhs, l, interpolation), interpolation)
    decreases l, PRIMARY - k
  {
    if l.Link? {
      MeaningPrintable(l.operand, k + 1, interpolation);
      LinksPrintable(l.rest, k, Binary(lhs, l.op, Meaning(l.operand, interpolation)), interpolation);
    }
  }

  /** Whatever was parsed, its printing parses to the same expression and has no more tokens. */
  lemma RoundTrip(ts: seq<Token>, interpolation: bool)
    requires Lexed(ts) && ParseExpr(ts, interpolation).Some?
    ensures var e := ParseExpr(ts, interpolation).value;
            ParseExpr(Print(e, 0), interpolation) == Some(e) && |Print(e, 0)| <= |ts|
  {
    hide ParseExpr, Derives, Meaning, Yield, Print, Printable;
    var e := ParseExpr(ts, interpolation).value;
    AcceptsGrammar(ts, e, interpolation);
    var t :| Derives(0, t, interpolation) && Yield(t) == ts && Meaning(t, interpolation) == e;
    MeaningPrintable(t, 0, interpolation);
    PrintParses(e, interpolation);
    PrintShortest(t, 0, interpolation);
  }
}
