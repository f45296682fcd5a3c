/** The or-else pattern (OrElsePattern): a binary fallback combinator whose first
    operand is attempted before its second. */
module OrElsePatterns {
  import opened CampPatterns

  /** Construction always succeeds and keeps the operands in argument order. */
  function MakeOrElse(first: Pattern, second: Pattern): (r: Pattern)
    ensures Kind(r) == PorElse && Tag(r) == "porElse"
    ensures Operands(r) == [PatternOperand(first), PatternOperand(second)]
  {
    OrElse(first, second)
  }

  /** The rendering holds the first operand's text, then the second's, each at a
      fixed place: "do " before the first and " or else " between them. */
  lemma OrElseRendering(first: Pattern, second: Pattern)
    requires Renderable(first) && Renderable(second)
    ensures var text, a, b := Render(MakeOrElse(first, second)), Render(first), Render(second);
            |text| == |a| + |b| + 12
            && text[..3] == "do "
            && text[3..3 + |a|] == a
            && text[3 + |a|..12 + |a|] == " or else "
            && text[12 + |a|..] == b
  {
    var a, b := Render(first), Render(second);
    assert Render(MakeOrElse(first, second)) == "do " + a + " or else " + b;
    KeywordSlices(a, b);
  }

  /** Where each part of "do " + a + " or else " + b lies. */
  lemma KeywordSlices(a: string, b: string)
    ensures var text := "do " + a + " or else " + b;
            |text| == |a| + |b| + 12
            && text[..3] == "do "
            && text[3..3 + |a|] == a
            && text[3 + |a|..12 + |a|] == " or else "
            && text[12 + |a|..] == b
  {
    var text := "do " + a + " or else " + b;
    assert text == ("do " + a) + (" or else " + b);
    assert text[..3 + |a|] == "do " + a;
    assert text[3 + |a|..] == " or else " + b;
  }

  /** For operands whose texts have equal length, swapping them leaves the
      rendering unchanged only when the texts are the same. */
  lemma SwapSameLength(first: Pattern, second: Pattern)
    requires Renderable(first) && Renderable(second)
    requires |Render(first)| == |Render(second)|
    ensures Render(MakeOrElse(first, second)) == Render(MakeOrElse(second, first))
            <==> Render(first) == Render(second)
  {
    if Render(MakeOrElse(first, second)) == Render(MakeOrElse(second, first)) {
      OrElseRendering(first, second);
      OrElseRendering(second, first);
    }
  }

  /** Operand texts of different lengths can still render the same both ways
      round: the rendering alone does not fix the operand order. */
  lemma SwapCanCollide()
    ensures var first, second := Leaf("x", "x"), Leaf("x", "x or else x");
            Render(first) != Render(second)
            && Render(MakeOrElse(first, second)) == Render(MakeOrElse(second, first))
  {
    var first, second := Leaf("x", "x"), Leaf("x", "x or else x");
    assert Render(first) != Render(second) by {
      assert |Render(first)| != |Render(second)|;
    }
  }
}
