/** `WhereExpr.String`: the human-readable form of a `where` expression tree.
    Each node may have several slots set; the first slot that is fully
    present, in the order field, literal, and, or, not, equals, contains,
    decides how the node is printed. A literal is printed with Go's `%q`
    verb, supplied here as the parameter `quote`. */
module WhereExprs {
  import opened Wrappers

  datatype WhereExpr<L> = WhereExpr(
    field: string,
    literal: Option<L>,
    and: WherePair<L>,
    or: WherePair<L>,
    not: Option<WhereExpr<L>>,
    equals: WherePair<L>,
    contains: WherePair<L>)

  /** `WhereExpr2`: a pair of sub-expressions; either side may be nil. */
  datatype WherePair<L> = WherePair(l: Option<WhereExpr<L>>, r: Option<WhereExpr<L>>) {
    predicate Full() {
      l.Some? && r.Some?
    }
  }

  /** The way a node is printed, decided by its first present slot. */
  datatype Shape = FieldShape | LiteralShape | AndShape | OrShape | NotShape | EqualsShape | ContainsShape | Blank

  function ShapeOf<L>(e: WhereExpr<L>): Shape {
    if e.field != "" then FieldShape
    else if e.literal.Some? then LiteralShape
    else if e.and.Full() then AndShape
    else if e.or.Full() then OrShape
    else if e.not.Some? then NotShape
    else if e.equals.Full() then EqualsShape
    else if e.contains.Full() then ContainsShape
    else Blank
  }

  /** `l op r`. */
  function Sides<L>(op: string, p: WherePair<L>, quote: L -> string): string
    requires p.Full()
    decreases p, 0
  {
    Render(p.l.value, quote) + op + Render(p.r.value, quote)
  }

  /** `(l op r)`. */
  function Infix<L>(op: string, p: WherePair<L>, quote: L -> string): (s: string)
    requires p.Full()
    ensures |s| >= 2 && s[0] == '(' && s[|s| - 1] == ')'
    decreases p, 1
  {
    "(" + Sides(op, p, quote) + ")"
  }

  /** `name(l, r)`. */
  function Call<L>(name: string, p: WherePair<L>, quote: L -> string): (s: string)
    requires p.Full()
    ensures |s| >= |name| + 2 && s[..|name|] == name && s[|name|] == '(' && s[|s| - 1] == ')'
    decreases p, 2
  {
    name + Infix(", ", p, quote)
  }

  /** Only a node with no usable slot, or a literal quoted as nothing, prints
      as the empty string; the infix operators are always parenthesised. */
  function Render<L>(e: WhereExpr<L>, quote: L -> string): (s: string)
    ensures |s| == 0 <==>
              ShapeOf(e) == Blank || (ShapeOf(e) == LiteralShape && |quote(e.literal.value)| == 0)
    ensures ShapeOf(e) == AndShape || ShapeOf(e) == OrShape ==>
              |s| >= 2 && s[0] == '(' && s[|s| - 1] == ')'
    decreases e, 3
  {
    match ShapeOf(e)
    case FieldShape => e.field
    case LiteralShape => quote(e.literal.value)
    case AndShape => Infix(" && ", e.and, quote)
    case OrShape => Infix(" || ", e.or, quote)
    case NotShape => "!" + Render(e.not.value, quote)
    case EqualsShape => Call("equals", e.equals, quote)
    case ContainsShape => Call("contains", e.contains, quote)
    case Blank => ""
  }

  // ---- parentheses

  predicate Even(s: string) {
    multiset(s)['('] == multiset(s)[')']
  }

  /** Every field name and every quoted literal the printer emits for `e`
      opens as many parentheses as it closes. */
  ghost predicate LeavesEven<L>(e: WhereExpr<L>, quote: L -> string)
    decreases e, 1
  {
    match ShapeOf(e)
    case FieldShape => Even(e.field)
    case LiteralShape => Even(quote(e.literal.value))
    case AndShape => PairEven(e.and, quote)
    case OrShape => PairEven(e.or, quote)
    case NotShape => LeavesEven(e.not.value, quote)
    case EqualsShape => PairEven(e.equals, quote)
    case ContainsShape => PairEven(e.contains, quote)
    case Blank => true
  }

  ghost predicate PairEven<L>(p: WherePair<L>, quote: L -> string)
    requires p.Full()
    decreases p, 0
  {
    LeavesEven(p.l.value, quote) && LeavesEven(p.r.value, quote)
  }

  lemma EvenConcat(s: string, t: string)
    requires Even(s) && Even(t)
    ensures Even(s + t)
  {
    assert multiset(s + t) == multiset(s) + multiset(t);
  }

  /** The printed form has as many opening as closing parentheses whenever
      its leaves do: the printer itself only ever adds them in pairs. */
  lemma {:induction false} RenderEven<L>(e: WhereExpr<L>, quote: L -> string)
    requires LeavesEven(e, quote)
    ensures Even(Render(e, quote))
    decreases e, 3
  {
    match ShapeOf(e)
    case FieldShape =>
    case LiteralShape =>
    case AndShape =>
      InfixEven(" && ", e.and, quote);
    case OrShape =>
      InfixEven(" || ", e.or, quote);
    case NotShape =>
      Absent("!");
      RenderEven(e.not.value, quote);
      EvenConcat("!", Render(e.not.value, quote));
    case EqualsShape =>
      CallEven("equals", e.equals, quote);
    case ContainsShape =>
      CallEven("contains", e.contains, quote);
    case Blank =>
  }

  predicate NoParen(w: string) {
    forall i :: 0 <= i < |w| ==> w[i] != '(' && w[i] != ')'
  }

  lemma Absent(w: string)
    requires NoParen(w)
    ensures Even(w)
  {
    assert '(' !in w && ')' !in w;
    assert '(' !in multiset(w) && ')' !in multiset(w);
  }

  /** Wrapping in one pair of parentheses keeps the balance. */
  lemma ParenWrap(s: string)
    requires Even(s)
    ensures Even("(" + s + ")")
  {
    assert multiset("(" + s + ")") == multiset("(") + multiset(s) + multiset(")");
  }

  /** The two sides and the separator between them. */
  lemma {:induction false} SidesEven<L>(sep: string, p: WherePair<L>, quote: L -> string)
    requires p.Full() && PairEven(p, quote) && NoParen(sep)
    ensures Even(Sides(sep, p, quote))
    decreases p, 0
  {
    var a := Render(p.l.value, quote);
    var b := Render(p.r.value, quote);
    RenderEven(p.l.value, quote);
    RenderEven(p.r.value, quote);
    Absent(sep);
    EvenConcat(a, sep);
    EvenConcat(a + sep, b);
  }

  lemma {:induction false} InfixEven<L>(op: string, p: WherePair<L>, quote: L -> string)
    requires p.Full() && PairEven(p, quote) && NoParen(op)
    ensures Even(Infix(op, p, quote))
    decreases p, 1
  {
    SidesEven(op, p, quote);
    ParenWrap(Sides(op, p, quote));
  }

  lemma {:induction false} CallEven<L>(name: string, p: WherePair<L>, quote: L -> string)
    requires p.Full() && PairEven(p, quote) && NoParen(name)
    ensures Even(Call(name, p, quote))
    decreases p, 2
  {
    Absent(name);
    InfixEven(", ", p, quote);
    EvenConcat(name, Infix(", ", p, quote));
  }
}
