/** The unary operator pattern (UnaryPattern): construction validated against the
    operator's declared parameter kind, the shape-narrowing accessors, and what
    the discriminant, operand list and rendering of such a node are. */
module UnaryPatterns {
  import opened Wrappers
  import opened Parameters
  import opened CampPatterns

  /** The exceptions construction throws. `NullPointer` is what the Java switch
      itself throws when the declared kind is null. */
  datatype Error = IllegalArgument(message: string) | IllegalState(message: string) | NullPointer

  const NullKindMessage := "Unexpected null ParameterKind"

  /** The parameter shape an operator of the given kind accepts. */
  predicate Admits(kind: ParameterKind, param: Param) {
    match kind
    case NoneKind => param.PNull?
    case StringKind => param.PString?
    case StringListKind => param.PList? && |param.items| > 0 && param.items[0].PString?
    case UnlistedKind => false
  }

  /** The three-argument constructor. A null or unlisted parameter kind is a
      corrupted operator table and fails with IllegalState; a parameter of the
      wrong shape fails with IllegalArgument naming the operator. */
  function MakeUnary(op: UnaryOperator, param: Param, operand: Pattern): (r: Result<Pattern, Error>)
    ensures r.Success? ==> r.value == Unary(op, param, operand)
    ensures op.parameterKind == Some(NoneKind) ==> (r.Success? <==> param == PNull)
    ensures op.parameterKind == Some(StringKind) ==> (r.Success? <==> param.PString?)
    ensures op.parameterKind == Some(StringListKind) ==>
              (r.Success? <==> param.PList? && |param.items| > 0 && param.items[0].PString?)
    ensures op.parameterKind.None? || op.parameterKind == Some(UnlistedKind) ==>
              r == Failure(IllegalState(NullKindMessage))
    ensures r.Failure? && op.parameterKind.Some? && op.parameterKind.value != UnlistedKind ==>
              r.error.IllegalArgument?
  {
    match op.parameterKind
    case None => Failure(IllegalState(NullKindMessage))
    case Some(kind) =>
      match kind
      case NoneKind =>
        if param != PNull then Failure(IllegalArgument("No parameter with unary operator " + op.name))
        else Success(Unary(op, param, operand))
      case StringKind =>
        if param.PString? then Success(Unary(op, param, operand))
        else Failure(IllegalArgument("Scalar String parameter required with unary operator " + op.name))
      case StringListKind =>
        if param.PList? && |param.items| > 0 && param.items[0].PString? then Success(Unary(op, param, operand))
        else Failure(IllegalArgument("String list parameter required with unary operator " + op.name))
      case UnlistedKind => Failure(IllegalState(NullKindMessage))
  }

  /** The constructor as written: Java's switch on an enum dereferences the kind,
      so a null kind throws NullPointerException before the default branch. */
  function MakeUnaryAsWritten(op: UnaryOperator, param: Param, operand: Pattern): (r: Result<Pattern, Error>)
    ensures op.parameterKind.None? ==> r == Failure(NullPointer)
    ensures op.parameterKind.Some? ==> r == MakeUnary(op, param, operand)
  {
    if op.parameterKind.None? then Failure(NullPointer) else MakeUnary(op, param, operand)
  }

  /** The two-argument constructor supplies a null parameter, so it succeeds
      exactly for operators that declare no parameter. */
  function MakeUnaryNoParam(op: UnaryOperator, operand: Pattern): (r: Result<Pattern, Error>)
    ensures r.Success? <==> op.parameterKind == Some(NoneKind)
    ensures r.Success? ==> r.value == Unary(op, PNull, operand)
    ensures op.parameterKind == Some(StringKind) || op.parameterKind == Some(StringListKind) ==>
              r.Failure? && r.error.IllegalArgument?
  {
    MakeUnary(op, PNull, operand)
  }

  /** getStringParameter: the parameter if it is a String, else null. */
  function StringParameter(p: Pattern): (r: Option<string>)
    requires p.Unary?
    ensures r.Some? <==> p.param.PString?
    ensures r.Some? ==> r.value == p.param.s
  {
    match p.param
    case PString(s) => Some(s)
    case _ => None
  }

  /** getStringListParameter: the parameter if it is a List, else null. */
  function StringListParameter(p: Pattern): (r: Option<seq<Param>>)
    requires p.Unary?
    ensures r.Some? <==> p.param.PList?
    ensures r.Some? ==> r.value == p.param.items
  {
    match p.param
    case PList(items) => Some(items)
    case _ => None
  }

  /** Construction succeeds exactly when the declared kind admits the parameter. */
  lemma MakeUnaryAdmits(op: UnaryOperator, param: Param, operand: Pattern)
    ensures MakeUnary(op, param, operand).Success? <==>
              op.parameterKind.Some? && Admits(op.parameterKind.value, param)
  {
  }

  /** On a constructed node the two accessors never both yield a value, and which
      one yields a value is decided by the operator's declared kind. */
  lemma AccessorsFollowKind(op: UnaryOperator, param: Param, operand: Pattern)
    requires MakeUnary(op, param, operand).Success?
    ensures var n := MakeUnary(op, param, operand).value;
            !(StringParameter(n).Some? && StringListParameter(n).Some?)
            && (StringParameter(n).Some? <==> op.parameterKind == Some(StringKind))
            && (StringListParameter(n).Some? <==> op.parameterKind == Some(StringListKind))
  {
  }

  /** A constructed node has kind punop and tag "punop", and its operands are the
      operator and the operand, whatever the parameter. */
  lemma UnaryShape(op: UnaryOperator, param: Param, operand: Pattern, other: Param)
    requires MakeUnary(op, param, operand).Success?
    ensures var n := MakeUnary(op, param, operand).value;
            Kind(n) == Punop && Tag(n) == "punop"
            && Operands(n) == [OperatorOperand(op), PatternOperand(operand)]
            && Operands(n) == Operands(Unary(op, other, operand))
  {
  }

  /** A constructed node of a None-kind operator renders with no parameter text:
      the operator, then the operand in parentheses. */
  lemma RenderNoParameter(op: UnaryOperator, param: Param, operand: Pattern)
    requires op.parameterKind == Some(NoneKind)
    requires MakeUnary(op, param, operand).Success? && Renderable(operand)
    ensures Renderable(MakeUnary(op, param, operand).value)
    ensures Render(MakeUnary(op, param, operand).value) == op.name + "(" + Render(operand) + ")"
  {
    assert param == PNull;
    assert FormattedParameter(param) == "";
    assert op.name + "" == op.name;
  }

  /** A constructed node of a String-kind operator renders the string between
      quotes and spaces, between the operator and the parenthesised operand. */
  lemma RenderStringParameter(op: UnaryOperator, param: Param, operand: Pattern)
    requires op.parameterKind == Some(StringKind)
    requires MakeUnary(op, param, operand).Success? && Renderable(operand)
    ensures param.PString?
    ensures Renderable(MakeUnary(op, param, operand).value)
    ensures Render(MakeUnary(op, param, operand).value)
            == op.name + " \"" + param.s + "\" " + "(" + Render(operand) + ")"
  {
    assert param.PString?;
    assert FormattedParameter(param) == " \"" + param.s + "\" ";
  }

  /** A constructed node of a StringList-kind operator whose elements are all
      strings or null renders the bracketed quoted list between the operator and
      the parenthesised operand. */
  lemma RenderListParameter(op: UnaryOperator, param: Param, operand: Pattern)
    requires op.parameterKind == Some(StringListKind)
    requires MakeUnary(op, param, operand).Success? && Formattable(param) && Renderable(operand)
    ensures param.PList? && |param.items| > 0
    ensures Renderable(MakeUnary(op, param, operand).value)
    ensures Render(MakeUnary(op, param, operand).value)
            == op.name + " [" + Join(QuoteAll(ElementTexts(param.items))) + "] " + "(" + Render(operand) + ")"
  {
    assert param.PList?;
  }

  /** The as-written constructor and the corrected one differ only for a null
      declared kind: NullPointerException instead of the IllegalStateException
      the default branch is written for. */
  lemma NullKindDiscrepancy(name: string, param: Param, operand: Pattern)
    ensures var op := UnaryOperator(name, None);
            MakeUnaryAsWritten(op, param, operand) == Failure(NullPointer)
            && MakeUnary(op, param, operand) == Failure(IllegalState(NullKindMessage))
  {
  }
}
