# CAMP abstract-syntax nodes in Dafny

This project models four node classes of the Java AST for CAMP, the Calculus of
Aggregating Matching Patterns. CAMP is the pattern/rule intermediate language of the
qcert query compiler. The four nodes are:

- the unary operator pattern, which validates its parameter against the operator's
  declared parameter kind and renders the parameter as text;
- the or-else pattern, a two-operand fallback combinator;
- the "when" rule, built in functional form and then applied to a continuation;
- the boolean data literal.

Every node is an immutable value, so each family becomes a Dafny datatype. Each
constructor that can throw becomes a function returning `Result`. The one loop in
these classes, the string-list formatting in `formatParameter`, is a method. Its
loop invariant ties it to a pure specification.

Modules:

- `Wrappers`: `Option`, which stands for Java null, and `Result`, for constructors that throw.
- `Parameters`: the parameter shapes and the operator's declared kind. Also the
  `formatParameter` loop, its specification `FormattedParameter`, and a reader
  `ParseListParameter` that undoes the list formatting.
- `CampPatterns`: the pattern sum type with its kind, tag, operands and rendering.
- `UnaryPatterns`: validated construction and the accessors.
- `OrElsePatterns`: or-else construction and where its operands appear in its text.
- `CampRules`: the when rule and `apply`.
- `CampData`: the boolean literal.

The operator table (`UnaryOperator`) is not part of this model. Instead, an operator is
a value that carries its printed name and its declared parameter kind. The kind is an
`Option`, so `None` is a table entry that yields null. `UnlistedKind` stands for any
enum constant beyond None, String and StringList. Pattern and rule variants outside
these files are represented by the leaves `Leaf` and `OtherRule`. Each leaf carries
its own tag and text.

## Model

| member | source | states |
|---|---|---|
| `UnaryPatterns.MakeUnary` | camp-java/src/org/qcert/camp/pattern/UnaryPattern.java:39-62 | A None-kind operator succeeds iff the parameter is null. A String-kind operator succeeds iff the parameter is a String. A StringList-kind operator succeeds iff the parameter is a list of size > 0 whose first element is a String; later elements are not checked. A null or unlisted kind fails with IllegalState("Unexpected null ParameterKind"). Every other failure is IllegalArgument. On success the node holds the operator, parameter and operand. |
| `UnaryPatterns.MakeUnaryNoParam` | camp-java/src/org/qcert/camp/pattern/UnaryPattern.java:31-33 | The two-argument constructor passes null, so it succeeds exactly for None-kind operators. For String and StringList operators it fails with IllegalArgument. |
| `UnaryPatterns.MakeUnaryAdmits` | camp-java/src/org/qcert/camp/pattern/UnaryPattern.java:43-61 | Construction succeeds iff the kind is non-null and admits the parameter. |
| `UnaryPatterns.MakeUnaryAsWritten` | camp-java/src/org/qcert/camp/pattern/UnaryPattern.java:43-61 | The code as written: a null kind gives NullPointerException, because the switch dereferences the kind. Any non-null kind behaves as `MakeUnary`. |
| `UnaryPatterns.NullKindDiscrepancy` | camp-java/src/org/qcert/camp/pattern/UnaryPattern.java:43-60 | For a null kind, the as-written constructor throws NullPointerException, while the corrected one throws the IllegalState error the default branch is written for. |
| `UnaryPatterns.StringParameter` | camp-java/src/org/qcert/camp/pattern/UnaryPattern.java:116-118 | Yields the parameter iff it is a String; otherwise it yields null. |
| `UnaryPatterns.StringListParameter` | camp-java/src/org/qcert/camp/pattern/UnaryPattern.java:109-111 | Yields the parameter's list iff it is a List; otherwise it yields null. |
| `UnaryPatterns.AccessorsFollowKind` | camp-java/src/org/qcert/camp/pattern/UnaryPattern.java:109-118 | On a constructed node, at most one accessor yields a value. The string accessor yields one exactly for String-kind operators, the list accessor exactly for StringList-kind operators. |
| `UnaryPatterns.UnaryShape` | camp-java/src/org/qcert/camp/pattern/UnaryPattern.java:86-126 | A constructed node has kind punop and tag "punop". Its operands are exactly [operator, operand], and changing the parameter does not change them. |
| `UnaryPatterns.RenderNoParameter` | camp-java/src/org/qcert/camp/pattern/UnaryPattern.java:69-70 | A constructed node of a None-kind operator renders as the operator followed by the operand in parentheses, with no parameter text. |
| `UnaryPatterns.RenderStringParameter` | camp-java/src/org/qcert/camp/pattern/UnaryPattern.java:71-72 | A constructed node of a String-kind operator renders as the operator, then ` "s" `, then the operand in parentheses. |
| `UnaryPatterns.RenderListParameter` | camp-java/src/org/qcert/camp/pattern/UnaryPattern.java:73-79 | A constructed node of a StringList-kind operator renders as the operator, then the bracketed quoted list in element order, then the operand in parentheses. |
| `Parameters.FormatParameter` | camp-java/src/org/qcert/camp/pattern/UnaryPattern.java:68-80 | The loop yields `FormattedParameter`: "" for null, ` "s" ` for a String, and for a list " [", then each element quoted, in order, separated by ", " with no leading delimiter, then "] ". |
| `Parameters.JoinSnoc` | camp-java/src/org/qcert/camp/pattern/UnaryPattern.java:74-78 | Adding one more element adds the delimiter only if it is not the first element, then the element. This is the job of the `delim` variable. |
| `Parameters.ParseItemsRoundTrip` | camp-java/src/org/qcert/camp/pattern/UnaryPattern.java:75-78 | A non-empty run of quoted, comma-separated items reads back as exactly those items in order, provided no item contains a quote. |
| `Parameters.ListParameterRoundTrip` | camp-java/src/org/qcert/camp/pattern/UnaryPattern.java:73-79 | A formatted n-element list reads back as exactly its n element texts in the original order, provided none contains a quote. |
| `CampPatterns.Kind` | camp-java/src/org/qcert/camp/pattern/UnaryPattern.java:86-88 | The kind is punop exactly for unary nodes and porElse exactly for or-else nodes. The porElse case is `getKind` in OrElsePattern.java:31-33. |
| `CampPatterns.Tag` | camp-java/src/org/qcert/camp/pattern/UnaryPattern.java:124-126 | The tag of a unary node is "punop". The tag of an or-else node is "porElse", as in OrElsePattern.java:39-41. |
| `CampPatterns.Operands` | camp-java/src/org/qcert/camp/pattern/UnaryPattern.java:94-96 | A unary node's operands are exactly [operator, operand], without the parameter. An or-else node has two operands. Every pattern operand is a direct sub-pattern of the node. |
| `CampPatterns.Render` | camp-java/src/org/qcert/camp/pattern/UnaryPattern.java:133 | Computes `toString`. A unary node renders as the operator, then the parameter text, then the operand in parentheses, so its text ends in ")". An or-else node renders as "do " + first + " or else " + second, as in OrElsePattern.java:48. |
| `Parameters.FormattedParameter` | camp-java/src/org/qcert/camp/pattern/UnaryPattern.java:68-80 | Computes the text `formatParameter` returns. It is empty exactly for a null parameter. |
| `Parameters.FormattedParameterShape` | camp-java/src/org/qcert/camp/pattern/UnaryPattern.java:71-79 | A String parameter s renders as a space, a quote, s, a quote and a space, so it is four characters longer than s. A list renders as a space and "[", then the items, then "]" and a space. |
| `Parameters.FormatItems` | camp-java/src/org/qcert/camp/pattern/UnaryPattern.java:73-78 | The loop builds " [" followed by the quoted elements in order, separated by ", ", with no leading delimiter. |
| `OrElsePatterns.MakeOrElse` | camp-java/src/org/qcert/camp/pattern/OrElsePattern.java:23-41 | Construction always succeeds. The kind is porElse, the tag is "porElse", and the operands are the two patterns in argument order. |
| `OrElsePatterns.OrElseRendering` | camp-java/src/org/qcert/camp/pattern/OrElsePattern.java:48 | The text is "do ", the first operand's text, " or else ", then the second's. Each part sits at a fixed offset, so the first operand's text comes before the second's. |
| `OrElsePatterns.SwapSameLength` | camp-java/src/org/qcert/camp/pattern/OrElsePattern.java:48 | Suppose the operand texts have equal length. Then swapping the operands keeps the rendering iff the two texts are equal. |
| `OrElsePatterns.SwapCanCollide` | camp-java/src/org/qcert/camp/pattern/OrElsePattern.java:48 | Operands whose texts differ ("x" and "x or else x") render the same in either order. So the equal-length condition above cannot be dropped. |
| `CampRules.NewWhenRule` | camp-java/src/org/qcert/camp/rule/WhenRule.java:27-29 | The public constructor yields a functional rule: it holds the given pattern and no continuation. |
| `CampRules.Apply` | camp-java/src/org/qcert/camp/rule/WhenRule.java:36-46 | The result is an applied rule. It holds the receiver's pattern, and the operand is its continuation. |
| `CampRules.ApplyReplacesContinuation` | camp-java/src/org/qcert/camp/rule/WhenRule.java:36-46 | Applying an already-applied rule keeps the original pattern and replaces the continuation. No check restricts apply to the functional form. |
| `CampRules.Tag` | camp-java/src/org/qcert/camp/rule/WhenRule.java:60-62 | The tag of a when rule is "rule_when". |
| `CampRules.Render` | camp-java/src/org/qcert/camp/rule/WhenRule.java:68-70 | Computes `toString`: "rule_when (" + the pattern's text + ")". The text starts with "rule_when (" and ends with ")". |
| `CampRules.Kind` | camp-java/src/org/qcert/camp/rule/WhenRule.java:52-54 | The kind is When exactly for when rules. |
| `CampRules.WhenKindTag` | camp-java/src/org/qcert/camp/rule/WhenRule.java:52-62 | Functional and applied when rules both have kind When and tag "rule_when". |
| `CampRules.RenderIgnoresContinuation` | camp-java/src/org/qcert/camp/rule/WhenRule.java:68-70 | The text is "rule_when (" + the pattern's text + ")". Applying the rule does not change it. |
| `CampRules.RenderFunctional` | camp-java/src/org/qcert/camp/rule/WhenRule.java:69 | A functional rule's text starts with "rule_when (", ends with ")", and holds exactly the pattern's text in between. |
| `CampData.MakeBool` | camp-java/src/org/qcert/camp/data/BoolData.java:26-28 | `isTrue()` of the constructed node is the constructor argument. |
| `CampData.IsTrue` | camp-java/src/org/qcert/camp/data/BoolData.java:57-59 | `isTrue` holds exactly for the literal built from true. |
| `CampData.Kind` | camp-java/src/org/qcert/camp/data/BoolData.java:34-36 | The kind is always dbool. |
| `CampData.Tag` | camp-java/src/org/qcert/camp/data/BoolData.java:50-52 | The tag is always "dbool". |
| `CampData.Operands` | camp-java/src/org/qcert/camp/data/BoolData.java:42-44 | The operands are exactly the single wrapped boolean. |
| `CampData.Render` | camp-java/src/org/qcert/camp/data/BoolData.java:65-67 | The text is "true" iff the value is true, and "false" iff it is false. |
| `CampData.RenderRoundTrip` | camp-java/src/org/qcert/camp/data/BoolData.java:65-67 | Reading the text back gives the value the node was built from. |
| `CampData.SameValueInterchangeable` | camp-java/src/org/qcert/camp/data/BoolData.java:20-27 | Nodes built from the same boolean have equal kind, tag, operands and text. Nodes built from different booleans have different texts. |

## Findings

| source | as written | input that shows it | evidently intended | confidence | as-written member | corrected member |
|---|---|---|---|---|---|---|
| camp-java/src/org/qcert/camp/pattern/UnaryPattern.java:43-60 | `switch(operator.getParameterKind())` on a null enum value throws NullPointerException before any case is chosen (Java Language Specification, section 14.11). So the `default` branch and its "Unexpected null ParameterKind" IllegalStateException are never reached for null. | an operator whose `getParameterKind()` returns null | a null kind is reported as IllegalStateException("Unexpected null ParameterKind"), the invalid-state error | medium; not executed (the operator table is not part of this model, so whether any operator yields null is unknown) | `UnaryPatterns.MakeUnaryAsWritten`, `UnaryPatterns.NullKindDiscrepancy` | `UnaryPatterns.MakeUnary` |

## Left out

- TimeScaleData: it wraps an untyped object whose representation the source leaves undecided, and its text is that object's own `toString`. The model has only its kind constant, `DtimeScale`.
- The factory that interns the two boolean nodes lives in CampData, which is not part of this model. Process-wide identity is not a value property.
- The UnaryOperator enumeration, its parameter-kind table and its `toString` are not part of this model. An operator is represented by its name and its declared kind, and that covers every possible table.
- The base classes CampAST, CampPattern, PatternRule and CampRule are not part of this model. Their generic operand-based rendering, the continuation's rendering, `getOperand`/`getOperand1`/`getOperand2`, and the rule operands are left out. `Leaf` and `OtherRule` stand for the variants of those families that are not modelled.
- `getOperator` is the datatype field `op` and has no separate member.
- Parameter formatting: a list element that is neither a String nor null would make `formatParameter` throw ClassCastException. `Render` and `FormatParameter` therefore require `Formattable`, and that exception is not modelled. A null element is rendered as "null", as StringBuilder appends it.
- Null operand patterns are not modelled.
- UnaryPatterns.StringListParameter: the Java node keeps the caller's list by reference, and `getStringListParameter` returns that same object. Whoever holds it can change it after construction, for example by clearing it or adding a non-String. That changes what `toString` prints, can break the non-empty, first-element-is-a-String condition checked at construction, and can cause a later ClassCastException. The model stores an immutable sequence. It therefore captures only the list's contents at construction time, and it does not capture aliasing or later updates.
- UnaryPatterns.RenderListParameter: for the same reason, its `|param.items| > 0` describes the list as it was at construction time. It may not describe a list that was changed later.
- UnaryPatterns.MakeUnary: a null operator throws NullPointerException where its parameter kind is read. That is not modelled, because an operator is always a value here.
- CampRules.Apply: `apply(null)` returns a rule with a null continuation, which is the functional state again. That is not modelled: the operand is always a rule, so `Apply` always yields an applied rule.
- Object identity is not modelled: that `apply` returns a new object, and that the receiver is unchanged afterwards. Nodes are values, so the receiver cannot change.
- OrElsePatterns.SwapSameLength covers only operand texts of equal length. Swapping the operands can leave the text unchanged even when their texts differ; `SwapCanCollide` gives such a pair.
- Parsing concrete syntax, lowering to the executable algebra and code generation are not in these classes.
