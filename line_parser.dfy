/** What `_parse_elements_from_text` computes: the text is split on '\n';
    each line is stripped and lower-cased and tested against one English
    and one Hebrew keyword per field, in declaration order; the first field
    the line mentions gets the stripped text after the line's last ':'.
    Lines that mention no field are ignored. */
module LineParser {
  import opened Wrappers
  import opened Text
  import opened Elements

  /** The English and the Hebrew keyword of each field. */
  function Keywords(f: Field): (string, string) {
    match f
    case Subject => ("subject", "נושא")
    case Composition => ("composition", "קומפוזיציה")
    case Style => ("style", "סגנון")
    case Lighting => ("lighting", "תאורה")
    case Color => ("color", "צבע")
    case Mood => ("mood", "מצב רוח")
    case Details => ("details", "פרטים")
    case Context => ("context", "הקשר")
  }

  /** `'<english>' in line or '<hebrew>' in line`. */
  predicate Mentions(line: string, f: Field) {
    Contains(line, Keywords(f).0) || Contains(line, Keywords(f).1)
  }

  /** The field a (normalised) line sets, if any: the if/elif chain, which
      tests the fields in declaration order. */
  function Classify(line: string): Option<Field> {
    if Mentions(line, Subject) then Some(Subject)
    else if Mentions(line, Composition) then Some(Composition)
    else if Mentions(line, Style) then Some(Style)
    else if Mentions(line, Lighting) then Some(Lighting)
    else if Mentions(line, Color) then Some(Color)
    else if Mentions(line, Mood) then Some(Mood)
    else if Mentions(line, Details) then Some(Details)
    else if Mentions(line, Context) then Some(Context)
    else None
  }

  /** `line.strip().lower()`. */
  function Normalize(raw: string): string {
    Lower(Strip(raw))
  }

  /** `line.split(':')[-1].strip()`. */
  function ValueOf(line: string): string {
    Strip(Last(Split(line, ':')))
  }

  /** The record after one line has been processed. */
  function ParseLine(e: PromptElements, raw: string): PromptElements {
    var line := Normalize(raw);
    match Classify(line)
    case None => e
    case Some(f) => With(e, f, ValueOf(line))
  }

  /** The record after processing `lines` in order, starting from `PromptElements()`. */
  function ParseLines(lines: seq<string>): PromptElements
    decreases |lines|
  {
    if |lines| == 0 then Empty
    else ParseLine(ParseLines(lines[..|lines| - 1]), lines[|lines| - 1])
  }

  /** The record `_parse_elements_from_text(text)` returns. */
  function ParseText(text: string): PromptElements {
    ParseLines(Split(text, '\n'))
  }

  // ---------------------------------------------------------------------------
  // Properties

  /** First match wins: a line sets field `f` exactly when it mentions `f`
      and no field before `f` in declaration order; it sets nothing exactly
      when it mentions no field. */
  lemma ClassifyFirstMatch(line: string, f: Field)
    ensures Classify(line) == Some(f) <==>
      Mentions(line, f) && forall g :: Index(g) < Index(f) ==> !Mentions(line, g)
    ensures Classify(line).None? <==> forall g :: !Mentions(line, g)
  {
  }

  /** One line changes at most one field, the one it is classified as, and
      sets it to the line's value; a line that mentions no field changes nothing. */
  lemma ParseLineEffect(e: PromptElements, raw: string)
    ensures Classify(Normalize(raw)).None? ==> ParseLine(e, raw) == e
    ensures Classify(Normalize(raw)).Some? ==>
      var f := Classify(Normalize(raw)).value;
      && Get(ParseLine(e, raw), f) == ValueOf(Normalize(raw))
      && forall g :: g != f ==> Get(ParseLine(e, raw), g) == Get(e, g)
  {
  }

  /** A line sets `f`. */
  predicate Sets(raw: string, f: Field) {
    Classify(Normalize(raw)) == Some(f)
  }

  /** A field stays "" unless some line sets it. */
  lemma {:induction false} Untouched(lines: seq<string>, f: Field)
    requires forall i :: 0 <= i < |lines| ==> !Sets(lines[i], f)
    ensures Get(ParseLines(lines), f) == ""
    decreases |lines|
  {
    if |lines| > 0 {
      var init := lines[..|lines| - 1];
      assert forall i :: 0 <= i < |init| ==> init[i] == lines[i];
      Untouched(init, f);
      assert !Sets(lines[|lines| - 1], f);
    }
  }

  /** Last write wins: a field holds the value of the last line that sets it. */
  lemma {:induction false} LastWriteWins(lines: seq<string>, f: Field, i: nat)
    requires i < |lines| && Sets(lines[i], f)
    requires forall j :: i < j < |lines| ==> !Sets(lines[j], f)
    ensures Get(ParseLines(lines), f) == ValueOf(Normalize(lines[i]))
    decreases |lines|
  {
    var init := lines[..|lines| - 1];
    if i < |lines| - 1 {
      assert forall j :: i < j < |init| ==> init[j] == lines[j];
      LastWriteWins(init, f, i);
      assert !Sets(lines[|lines| - 1], f);
    }
  }

  /** The value of a line is the stripped text after its last ':', or the
      whole stripped line when it has no ':'. */
  lemma ValueAfterLastColon(line: string)
    ensures ValueOf(line) == Strip(line[RFind(line, ':') + 1..])
    ensures ':' !in line ==> ValueOf(line) == Strip(line)
  {
    LastPieceAfterRFind(line, ':');
    if ':' !in line {
      SplitWithout(line, ':');
    }
  }

  /** The line "Style: watercolor" sets the style to "watercolor" and nothing else. */
  lemma StyleLineExample(text: string)
    requires text == "Style: watercolor"
    ensures ParseText(text) == Empty.(style := "watercolor")
  {
    SingleLine(text);
    StyleLineParsed(text);
  }

  /** A text without '\n' is parsed as its one line. */
  lemma SingleLine(text: string)
    requires '\n' !in text
    ensures ParseText(text) == ParseLine(Empty, text)
  {
    assert Find(text, '\n') == |text|;
    assert Split(text, '\n') == [text];
    assert [text][..0] == [];
    assert ParseLines([text]) == ParseLine(ParseLines([]), text);
  }

  /** "Style: watercolor" alone sets the style to "watercolor". */
  lemma StyleLineParsed(raw: string)
    requires raw == "Style: watercolor"
    ensures ParseLine(Empty, raw) == Empty.(style := "watercolor")
  {
    StyleLineNormalized(raw);
    var line := Normalize(raw);
    StyleLineClassified(line);
    StyleLineValue(line);
    LineSets(Empty, raw, Style, "watercolor");
  }

  /** A line classified as `f` with value `v` sets `f` to `v`. */
  lemma LineSets(e: PromptElements, raw: string, f: Field, v: string)
    requires Classify(Normalize(raw)) == Some(f) && ValueOf(Normalize(raw)) == v
    ensures ParseLine(e, raw) == With(e, f, v)
  {
  }

  /** The value of "style: watercolor" is "watercolor". */
  lemma StyleLineValue(line: string)
    requires line == "style: watercolor"
    ensures ValueOf(line) == "watercolor"
  {
    assert line == "style" + ":" + " watercolor";
    ValueAfterColon("style", " watercolor");
    StripLeading(" watercolor");
  }

  /** A line "<pre>:<rest>" whose `rest` has no ':' has the stripped `rest` as value. */
  lemma ValueAfterColon(pre: string, rest: string)
    requires ':' !in rest
    ensures ValueOf(pre + ":" + rest) == Strip(rest)
  {
    var line := pre + ":" + rest;
    ValueAfterLastColon(line);
    assert line[|pre| + 1..] == rest;
    RFindBefore(line, ':', |pre| + 1);
  }

  /** Stripping " watercolor". */
  lemma StripLeading(s: string)
    requires s == " watercolor"
    ensures Strip(s) == "watercolor"
  {
    assert StripLeft(s) == s[1..];
    StripTrimmed(s[1..]);
  }

  /** "Style: watercolor" normalises to "style: watercolor". */
  lemma StyleLineNormalized(raw: string)
    requires raw == "Style: watercolor"
    ensures Normalize(raw) == "style: watercolor"
  {
    StripTrimmed(raw);
  }

  /** "style: watercolor" mentions the style and neither field before it. */
  lemma StyleLineClassified(line: string)
    requires line == "style: watercolor"
    ensures Classify(line) == Some(Style)
  {
    NoSubject(line);
    NoComposition(line);
    assert Mentions(line, Style) by {
      assert StartsWith(line, "style");
    }
    ClassifyFirstMatch(line, Style);
  }

  /** "style: watercolor" holds neither "subject" nor "נושא". */
  lemma NoSubject(line: string)
    requires line == "style: watercolor"
    ensures !Mentions(line, Subject)
  {
    AbsentChar(line, "subject", 'j');
    AbsentChar(line, "נושא", 'נ');
  }

  /** "style: watercolor" holds neither "composition" nor "קומפוזיציה". */
  lemma NoComposition(line: string)
    requires line == "style: watercolor"
    ensures !Mentions(line, Composition)
  {
    AbsentChar(line, "composition", 'p');
    AbsentChar(line, "קומפוזיציה", 'ק');
  }
}
