/** The parameter of a CAMP unary operator pattern: its possible shapes, the
    parameter kind an operator declares, and the canonical text the pattern
    renders it as (UnaryPattern.formatParameter). */
module Parameters {
  import opened Wrappers

  /** The parameter kinds a unary operator can declare. `UnlistedKind` stands for
      any further constant the operator table's enumeration may declare. */
  datatype ParameterKind = NoneKind | StringKind | StringListKind | UnlistedKind

  /** A unary operator as a pattern sees it: the text it prints as and the
      parameter kind it declares; `None` is a table entry that yields null. */
  datatype UnaryOperator = UnaryOperator(name: string, parameterKind: Option<ParameterKind>)

  /** The untyped parameter object: null, a String, a List of arbitrary objects,
      or any other object. */
  datatype Param = PNull | PString(s: string) | PList(items: seq<Param>) | POther

  /** A list element the formatting loop can append: a String, or null, which a
      StringBuilder appends as the text "null". */
  predicate IsTextElement(e: Param) {
    e.PString? || e.PNull?
  }

  /** The parameters formatParameter renders without a ClassCastException. */
  predicate Formattable(p: Param) {
    match p
    case PNull => true
    case PString(_) => true
    case PList(items) => forall i :: 0 <= i < |items| ==> IsTextElement(items[i])
    case POther => false
  }

  function ElementText(e: Param): string
    requires IsTextElement(e)
  {
    if e.PString? then e.s else "null"
  }

  function ElementTexts(items: seq<Param>): (ts: seq<string>)
    requires forall i :: 0 <= i < |items| ==> IsTextElement(items[i])
  {
    seq(|items|, i requires 0 <= i < |items| => ElementText(items[i]))
  }

  function Quote(t: string): string {
    "\"" + t + "\""
  }

  function QuoteAll(ts: seq<string>): seq<string> {
    seq(|ts|, i requires 0 <= i < |ts| => Quote(ts[i]))
  }

  /** The parts in order, separated by ", ", with no leading or trailing delimiter. */
  function Join(parts: seq<string>): string {
    if |parts| == 0 then ""
    else if |parts| == 1 then parts[0]
    else parts[0] + ", " + Join(parts[1..])
  }

  /** The text formatParameter produces: nothing for null, a space-quoted string
      for a String, and the quoted elements in brackets for a list. */
  function FormattedParameter(p: Param): (f: string)
    requires Formattable(p)
    ensures f == "" <==> p.PNull?
  {
    if p.PNull? then ""
    else if p.PString? then " \"" + p.s + "\" "
    else " [" + Join(QuoteAll(ElementTexts(p.items))) + "] "
  }

  /** The rendered parameter shows its shape: a String is space-quoted, a list is
      bracketed, so the two never render alike. */
  lemma FormattedParameterShape(p: Param)
    requires Formattable(p)
    ensures p.PString? ==> |FormattedParameter(p)| == |p.s| + 4
                           && FormattedParameter(p)[0] == ' ' && FormattedParameter(p)[1] == '"'
                           && FormattedParameter(p)[2..|p.s| + 2] == p.s
                           && FormattedParameter(p)[|p.s| + 2] == '"' && FormattedParameter(p)[|p.s| + 3] == ' '
    ensures p.PList? ==> |FormattedParameter(p)| >= 4
                         && FormattedParameter(p)[0] == ' ' && FormattedParameter(p)[1] == '['
                         && FormattedParameter(p)[|FormattedParameter(p)| - 2] == ']'
                         && FormattedParameter(p)[|FormattedParameter(p)| - 1] == ' '
  {
  }

  /** Appending one part to the list appends the delimiter (unless it is the
      first part) and the part. */
  lemma {:induction false} JoinSnoc(parts: seq<string>, x: string)
    ensures Join(parts + [x]) == Join(parts) + (if |parts| == 0 then "" else ", ") + x
  {
    if |parts| == 0 {
      assert parts + [x] == [x];
    } else if |parts| == 1 {
      assert (parts + [x])[1..] == [x];
    } else {
      assert (parts + [x])[1..] == parts[1..] + [x];
      JoinSnoc(parts[1..], x);
    }
  }

  /** UnaryPattern.formatParameter: nothing for null, the space-quoted String, or
      the list built by `FormatItems` closed with "] ". */
  method FormatParameter(p: Param) returns (text: string)
    requires Formattable(p)
    ensures text == FormattedParameter(p)
  {
    if p.PNull? {
      return "";
    }
    if p.PString? {
      return " \"" + p.s + "\" ";
    }
    var bldr := FormatItems(p.items);
    text := bldr + "] ";
  }

  /** The formatting loop of formatParameter: a builder that starts at " [" and,
      for each element in order, appends the delimiter and the quoted element,
      switching the delimiter to ", " after the first. */
  method FormatItems(items: seq<Param>) returns (bldr: string)
    requires forall j :: 0 <= j < |items| ==> IsTextElement(items[j])
    ensures bldr == " [" + Join(QuoteAll(ElementTexts(items)))
  {
    bldr := " [";
    var delim := "";
    for i := 0 to |items|
      invariant bldr == " [" + Join(QuoteAll(ElementTexts(items[..i])))
      invariant delim == if i == 0 then "" else ", "
    {
      var t := ElementText(items[i]);
      FormattedPrefixStep(items, i);
      AppendQuoted(" [", Join(QuoteAll(ElementTexts(items[..i]))), delim, t);
      bldr := bldr + delim + "\"" + t + "\"";
      delim := ", ";
    }
    assert items[..|items|] == items;
  }

  /** One more turn of the formatting loop extends the formatted prefix by the
      delimiter and the next quoted element. */
  lemma FormattedPrefixStep(items: seq<Param>, i: nat)
    requires i < |items|
    requires forall j :: 0 <= j < |items| ==> IsTextElement(items[j])
    ensures Join(QuoteAll(ElementTexts(items[..i + 1])))
         == Join(QuoteAll(ElementTexts(items[..i]))) + (if i == 0 then "" else ", ") + Quote(ElementText(items[i]))
  {
    var t := ElementText(items[i]);
    var before := QuoteAll(ElementTexts(items[..i]));
    assert ElementTexts(items[..i + 1]) == ElementTexts(items[..i]) + [t];
    assert QuoteAll(ElementTexts(items[..i + 1])) == before + [Quote(t)];
    JoinSnoc(before, Quote(t));
  }

  /** Appending delimiter, quote, text and quote to a builder that holds b + j
      leaves b followed by j extended with the delimiter and the quoted text. */
  lemma AppendQuoted(b: string, j: string, delim: string, t: string)
    ensures b + j + delim + "\"" + t + "\"" == b + (j + delim + Quote(t))
  {
  }

  /** The first index at or after `from` that holds a double quote, or |s|. */
  function NextQuote(s: string, from: nat): (k: nat)
    requires from <= |s|
    ensures from <= k <= |s|
    ensures forall j :: from <= j < k ==> s[j] != '"'
    ensures k < |s| ==> s[k] == '"'
    decreases |s| - from
  {
    if from == |s| || s[from] == '"' then from else NextQuote(s, from + 1)
  }

  /** Reads back a non-empty run of quoted items separated by ", ". */
  function ParseItems(s: string): Option<seq<string>>
    decreases |s|
  {
    if |s| == 0 || s[0] != '"' then None
    else
      var k := NextQuote(s, 1);
      if k == |s| then None
      else
        var item := s[1..k];
        var rest := s[k + 1..];
        if rest == [] then Some([item])
        else if |rest| >= 2 && rest[..2] == ", " then
          match ParseItems(rest[2..])
          case None => None
          case Some(more) => Some([item] + more)
        else None
  }

  /** Reads back the texts of a formatted list parameter " [...] ". */
  function ParseListParameter(f: string): Option<seq<string>> {
    if |f| >= 4 && f[..2] == " [" && f[|f| - 2..] == "] " then
      var body := f[2..|f| - 2];
      if body == [] then Some([]) else ParseItems(body)
    else None
  }

  predicate QuoteFree(ts: seq<string>) {
    forall i :: 0 <= i < |ts| ==> '"' !in ts[i]
  }

  lemma NextQuoteAfterItem(t: string, rest: string)
    requires '"' !in t
    ensures NextQuote(Quote(t) + rest, 1) == |t| + 1
  {
    var s := Quote(t) + rest;
    var k := NextQuote(s, 1);
    assert s[|t| + 1] == '"';
  }

  lemma {:induction false} ParseItemsRoundTrip(ts: seq<string>)
    requires |ts| >= 1 && QuoteFree(ts)
    ensures ParseItems(Join(QuoteAll(ts))) == Some(ts)
  {
    var q := QuoteAll(ts);
    var t := ts[0];
    assert '"' !in t;
    if |ts| == 1 {
      var s := Join(q);
      assert s == Quote(t) + "";
      NextQuoteAfterItem(t, "");
      assert s[1..|t| + 1] == t;
      assert s[|t| + 2..] == [];
      assert [t] == ts;
    } else {
      var tail := Join(QuoteAll(ts[1..]));
      assert q[1..] == QuoteAll(ts[1..]);
      var s := Join(q);
      assert s == Quote(t) + (", " + tail);
      NextQuoteAfterItem(t, ", " + tail);
      assert s[1..|t| + 1] == t;
      var rest := s[|t| + 2..];
      assert rest == ", " + tail;
      assert rest[..2] == ", ";
      assert rest[2..] == tail;
      ParseItemsRoundTrip(ts[1..]);
      assert [t] + ts[1..] == ts;
    }
  }

  /** Reading back a formatted string-list parameter yields the element texts,
      all of them and in their original order, when none contains a quote. */
  lemma ListParameterRoundTrip(items: seq<Param>)
    requires Formattable(PList(items))
    requires QuoteFree(ElementTexts(items))
    ensures ParseListParameter(FormattedParameter(PList(items))) == Some(ElementTexts(items))
  {
    var ts := ElementTexts(items);
    var body := Join(QuoteAll(ts));
    var f := FormattedParameter(PList(items));
    assert f == " [" + body + "] ";
    assert f[..2] == " [";
    assert f[|f| - 2..] == "] ";
    assert f[2..|f| - 2] == body;
    if |ts| == 0 {
      assert body == "";
    } else {
      ParseItemsRoundTrip(ts);
      assert body != [] by { assert body[0] == '"'; }
    }
  }
}
