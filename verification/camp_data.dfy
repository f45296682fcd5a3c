/** The CAMP data family's boolean literal (BoolData). */
module CampData {
  import opened Wrappers

  datatype BoolData = BoolData(value: bool)

  /** The discriminant of a data node (CampData.Kind), for the variants in view. */
  datatype DataKind = Dbool | DtimeScale

  /** The package-private constructor: wraps the truth value. */
  function MakeBool(value: bool): (d: BoolData)
    ensures IsTrue(d) == value
  {
    BoolData(value)
  }

  /** isTrue: holds exactly of the literal built from true. */
  function IsTrue(d: BoolData): (b: bool)
    ensures b <==> d == BoolData(true)
  {
    d.value
  }

  function Kind(d: BoolData): (k: DataKind)
    ensures k == Dbool
  {
    Dbool
  }

  function Tag(d: BoolData): (t: string)
    ensures t == "dbool"
  {
    "dbool"
  }

  /** The ordered operand list: just the wrapped truth value. */
  function Operands(d: BoolData): (ops: seq<bool>)
    ensures ops == [IsTrue(d)]
  {
    [d.value]
  }

  /** String.valueOf of the wrapped boolean. */
  function Render(d: BoolData): (text: string)
    ensures text == "true" <==> IsTrue(d)
    ensures text == "false" <==> !IsTrue(d)
  {
    if d.value then "true" else "false"
  }

  /** Reads back a rendered boolean. */
  function ParseBool(text: string): Option<bool> {
    if text == "true" then Some(true)
    else if text == "false" then Some(false)
    else None
  }

  /** The rendering is read back as the value it was built from. */
  lemma RenderRoundTrip(value: bool)
    ensures ParseBool(Render(MakeBool(value))) == Some(value)
  {
  }

  /** Two nodes built from the same truth value are interchangeable: same kind,
      tag, operands and text; nodes from different values render differently. */
  lemma SameValueInterchangeable(a: bool, b: bool)
    ensures a == b ==> Kind(MakeBool(a)) == Kind(MakeBool(b))
                       && Tag(MakeBool(a)) == Tag(MakeBool(b))
                       && Operands(MakeBool(a)) == Operands(MakeBool(b))
                       && Render(MakeBool(a)) == Render(MakeBool(b))
    ensures a != b ==> Render(MakeBool(a)) != Render(MakeBool(b))
  {
  }
}
