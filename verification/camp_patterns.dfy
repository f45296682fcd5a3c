/** The CAMP pattern family as one sum type: the two variants this model fixes
    (unary operator, or-else) and a leaf that stands for every other pattern
    variant, whose tag and rendering are given with it. */
module CampPatterns {
  import opened Parameters

  datatype Pattern =
    | Unary(op: UnaryOperator, param: Param, operand: Pattern)
    | OrElse(first: Pattern, second: Pattern)
    | Leaf(tag: string, text: string)

  /** The discriminant of a pattern node (CampPattern.Kind); `Pother` covers the
      variants the leaf stands for. */
  datatype PatternKind = Punop | PorElse | Pother

  /** One entry of a node's ordered operand list. */
  datatype PatternOperand = OperatorOperand(op: UnaryOperator) | PatternOperand(pattern: Pattern)

  /** The discriminant identifies the variant. */
  function Kind(p: Pattern): (k: PatternKind)
    ensures k == Punop <==> p.Unary?
    ensures k == PorElse <==> p.OrElse?
  {
    match p
    case Unary(_, _, _) => Punop
    case OrElse(_, _) => PorElse
    case Leaf(_, _) => Pother
  }

  function Tag(p: Pattern): (t: string)
    ensures p.Unary? ==> t == "punop"
    ensures p.OrElse? ==> t == "porElse"
  {
    match p
    case Unary(_, _, _) => "punop"
    case OrElse(_, _) => "porElse"
    case Leaf(tag, _) => tag
  }

  /** The ordered operand list: operator then operand for a unary pattern (the
      parameter is not an operand), both patterns in order for or-else. */
  function Operands(p: Pattern): (ops: seq<PatternOperand>)
    ensures p.Unary? ==> ops == [OperatorOperand(p.op), PatternOperand(p.operand)]
    ensures p.OrElse? ==> |ops| == 2
    ensures forall i :: 0 <= i < |ops| && ops[i].PatternOperand? ==> ops[i].pattern < p
  {
    match p
    case Unary(op, _, operand) => [OperatorOperand(op), PatternOperand(operand)]
    case OrElse(first, second) => [PatternOperand(first), PatternOperand(second)]
    case Leaf(_, _) => []
  }

  /** Every unary node in the tree has a parameter formatParameter can render. */
  predicate Renderable(p: Pattern) {
    match p
    case Unary(_, param, operand) => Formattable(param) && Renderable(operand)
    case OrElse(first, second) => Renderable(first) && Renderable(second)
    case Leaf(_, _) => true
  }

  /** The canonical text of a pattern (its toString). */
  function Render(p: Pattern): (text: string)
    requires Renderable(p)
    ensures p.Unary? ==> |text| >= |p.op.name| + 2 && text[|text| - 1] == ')'
    ensures p.OrElse? ==> |text| >= 12 && text[..3] == "do "
  {
    match p
    case Unary(op, param, operand) => op.name + FormattedParameter(param) + "(" + Render(operand) + ")"
    case OrElse(first, second) => "do " + Render(first) + " or else " + Render(second)
    case Leaf(_, text) => text
  }
}
