/** The CAMP rule family and its "when" rule (WhenRule): a rule built from a
    pattern, first in functional form and then applied to a continuation rule. */
module CampRules {
  import opened Wrappers
  import opened CampPatterns

  /** `WhenRule` with no continuation is the functional form; `OtherRule` stands
      for every other rule variant, with its tag and rendering. */
  datatype Rule =
    | WhenRule(pattern: Pattern, continuation: Option<Rule>)
    | OtherRule(tag: string, text: string)

  /** The discriminant of a rule node (CampRule.Kind). */
  datatype RuleKind = When | OtherKind

  predicate IsFunctional(r: Rule) {
    r.WhenRule? && r.continuation.None?
  }

  predicate IsApplied(r: Rule) {
    r.WhenRule? && r.continuation.Some?
  }

  /** The public constructor: a functional when rule over the pattern. */
  function NewWhenRule(pattern: Pattern): (r: Rule)
    ensures IsFunctional(r) && r.pattern == pattern
  {
    WhenRule(pattern, None)
  }

  /** apply: a new rule with the receiver's pattern and the operand as its
      continuation; the receiver is a value and stays as it was. */
  function Apply(r: Rule, operand: Rule): (applied: Rule)
    requires r.WhenRule?
    ensures IsApplied(applied)
    ensures applied.pattern == r.pattern && applied.continuation == Some(operand)
  {
    WhenRule(r.pattern, Some(operand))
  }

  function Kind(r: Rule): (k: RuleKind)
    ensures k == When <==> r.WhenRule?
  {
    match r
    case WhenRule(_, _) => When
    case OtherRule(_, _) => OtherKind
  }

  function Tag(r: Rule): (t: string)
    ensures r.WhenRule? ==> t == "rule_when"
  {
    match r
    case WhenRule(_, _) => "rule_when"
    case OtherRule(tag, _) => tag
  }

  predicate RuleRenderable(r: Rule) {
    r.WhenRule? ==> Renderable(r.pattern)
  }

  /** The canonical text of a rule (its toString). */
  function Render(r: Rule): (text: string)
    requires RuleRenderable(r)
    ensures r.WhenRule? ==> |text| >= 12 && text[..11] == "rule_when (" && text[|text| - 1] == ')'
  {
    match r
    case WhenRule(pattern, _) => "rule_when (" + CampPatterns.Render(pattern) + ")"
    case OtherRule(_, text) => text
  }

  /** Applying an applied rule again keeps the original pattern and replaces the
      continuation: nothing restricts apply to the functional form. */
  lemma ApplyReplacesContinuation(r: Rule, first: Rule, second: Rule)
    requires r.WhenRule?
    ensures Apply(Apply(r, first), second) == Apply(r, second)
    ensures Apply(Apply(r, first), second).pattern == r.pattern
  {
  }

  /** Every when rule, functional or applied, has kind When and tag "rule_when". */
  lemma WhenKindTag(pattern: Pattern, operand: Rule)
    ensures Kind(NewWhenRule(pattern)) == When && Tag(NewWhenRule(pattern)) == "rule_when"
    ensures Kind(Apply(NewWhenRule(pattern), operand)) == When
    ensures Tag(Apply(NewWhenRule(pattern), operand)) == "rule_when"
  {
  }

  /** The rendering shows the pattern and does not depend on the continuation:
      applying a rule leaves its text unchanged. */
  lemma RenderIgnoresContinuation(r: Rule, operand: Rule)
    requires r.WhenRule? && Renderable(r.pattern)
    ensures RuleRenderable(Apply(r, operand))
    ensures Render(Apply(r, operand)) == Render(r)
    ensures Render(r) == "rule_when (" + CampPatterns.Render(r.pattern) + ")"
  {
  }

  /** The functional form renders its pattern in "rule_when ( ... )". */
  lemma RenderFunctional(pattern: Pattern)
    requires Renderable(pattern)
    ensures var text := Render(NewWhenRule(pattern));
            text[..11] == "rule_when ("
            && text[11..|text| - 1] == CampPatterns.Render(pattern)
            && text[|text| - 1] == ')'
  {
    var text := Render(NewWhenRule(pattern));
    assert text == "rule_when (" + CampPatterns.Render(pattern) + ")";
  }
}
