/** What `create_basic_prompt` builds, stated once for all three copies:
    one part per non-empty field, in declaration order (the subject
    verbatim, every other field as "<label>: <value>"), then the three
    quality tokens, all joined with ", ". */
module Assembly {
  import opened Text
  import opened Elements

  /** What precedes a field's value in its part: nothing for the subject,
      "<label>: " for every other field. */
  function Prefix(f: Field): string {
    match f
    case Subject => ""
    case Composition => "composition: "
    case Style => "style: "
    case Lighting => "lighting: "
    case Color => "colors: "
    case Mood => "mood: "
    case Details => "details: "
    case Context => "for: "
  }

  /** The part field `f` contributes when it is non-empty. */
  function PartOf(e: PromptElements, f: Field): (part: string)
    ensures f == Subject ==> part == e.subject
  {
    Prefix(f) + Get(e, f)
  }

  /** The quality tokens appended to every prompt. */
  const QualityTokens: seq<string> := ["high quality", "detailed", "professional"]

  /** `", ".join(QualityTokens)`. */
  const QualityText: string := "high quality, detailed, professional"

  /** Fields listed in strictly increasing declaration order. */
  ghost predicate Increasing(fs: seq<Field>) {
    forall i, j :: 0 <= i < j < |fs| ==> Index(fs[i]) < Index(fs[j])
  }

  /** The fields of `fs` that are non-empty in `e`, in the order of `fs`. */
  function NonEmpty(e: PromptElements, fs: seq<Field>): (r: seq<Field>)
    ensures forall f :: f in r <==> f in fs && Get(e, f) != ""
    ensures (forall f :: f in fs ==> Get(e, f) == "") ==> r == []
    decreases |fs|
  {
    if |fs| == 0 then []
    else
      var init := NonEmpty(e, fs[..|fs| - 1]);
      var f := fs[|fs| - 1];
      assert forall g :: g in fs <==> g in fs[..|fs| - 1] || g == f;
      if Get(e, f) != "" then init + [f] else init
  }

  /** Dropping fields keeps the order of the rest. */
  lemma {:induction false} NonEmptyIncreasing(e: PromptElements, fs: seq<Field>)
    requires Increasing(fs)
    ensures Increasing(NonEmpty(e, fs))
    decreases |fs|
  {
    if |fs| > 0 {
      var init := fs[..|fs| - 1];
      var f := fs[|fs| - 1];
      assert Increasing(init);
      NonEmptyIncreasing(e, init);
      assert forall g :: g in init ==> Index(g) < Index(f);
    }
  }

  /** The part of each field of `fs`, in the same order. */
  function Parts(e: PromptElements, fs: seq<Field>): (r: seq<string>)
    ensures |r| == |fs|
    ensures forall i :: 0 <= i < |fs| ==> r[i] == PartOf(e, fs[i])
    decreases |fs|
  {
    if |fs| == 0 then [] else Parts(e, fs[..|fs| - 1]) + [PartOf(e, fs[|fs| - 1])]
  }

  /** The fields that contribute a part to the prompt of `e`. */
  function Emitted(e: PromptElements): seq<Field> {
    NonEmpty(e, AllFields)
  }

  /** The parts the fields among `fs` contribute. */
  function ContentParts(e: PromptElements, fs: seq<Field>): seq<string> {
    Parts(e, NonEmpty(e, fs))
  }

  /** The list of parts before joining. */
  function PromptParts(e: PromptElements): seq<string> {
    ContentParts(e, AllFields) + QualityTokens
  }

  /** The prompt `create_basic_prompt` returns. */
  function BasicPrompt(e: PromptElements): string {
    Join(PromptParts(e), ", ")
  }

  /** The parts of one more field: it adds its part exactly when it is non-empty. */
  lemma ContentPartsStep(e: PromptElements, k: nat)
    requires k < |AllFields|
    ensures AllFields[..k + 1][..k] == AllFields[..k]
    ensures ContentParts(e, AllFields[..k + 1]) == Tested(ContentParts(e, AllFields[..k]), e, AllFields[k])
  {
    var fs := AllFields[..k + 1];
    assert fs[..k] == AllFields[..k];
    var init := NonEmpty(e, AllFields[..k]);
    if Get(e, AllFields[k]) != "" {
      assert NonEmpty(e, fs) == init + [AllFields[k]];
      PartsSnoc(e, init, AllFields[k]);
    } else {
      assert NonEmpty(e, fs) == init;
    }
  }

  /** One more field, one more part at the end. */
  lemma PartsSnoc(e: PromptElements, fs: seq<Field>, f: Field)
    ensures Parts(e, fs + [f]) == Parts(e, fs) + [PartOf(e, f)]
  {
    assert (fs + [f])[..|fs|] == fs;
  }

  /** The part list after testing field `f`: one more part when `f` is non-empty. */
  function Tested(parts: seq<string>, e: PromptElements, f: Field): seq<string> {
    if Get(e, f) != "" then parts + [PartOf(e, f)] else parts
  }

  /** The parts the first `k` fields contribute, one field test at a time. */
  function PartsUpTo(e: PromptElements, k: nat): seq<string>
    requires k <= |AllFields|
  {
    if k == 0 then [] else Tested(PartsUpTo(e, k - 1), e, AllFields[k - 1])
  }

  /** Testing the fields one at a time builds the content parts. */
  lemma {:induction false} PartsUpToContent(e: PromptElements, k: nat)
    requires k <= |AllFields|
    ensures PartsUpTo(e, k) == ContentParts(e, AllFields[..k])
  {
    if k > 0 {
      PartsUpToContent(e, k - 1);
      ContentPartsStep(e, k - 1);
    }
  }

  /** Once all eight fields are tested, the quality tokens are added and
      the list is joined: that is the prompt. */
  lemma PromptFromTests(e: PromptElements, parts: seq<string>)
    requires parts == PartsUpTo(e, 8)
    ensures Join(parts + ["high quality", "detailed", "professional"], ", ") == BasicPrompt(e)
  {
    PartsUpToContent(e, 8);
    assert AllFields[..8] == AllFields;
  }

  // ---------------------------------------------------------------------------
  // Properties of the assembled prompt

  /** A field contributes a part exactly when it is non-empty. */
  lemma EmittedIff(e: PromptElements, f: Field)
    ensures f in Emitted(e) <==> Get(e, f) != ""
  {
    assert AllFields[Index(f)] == f;
  }

  /** The contributing fields keep declaration order, so each one contributes
      exactly one part and the parts follow the order subject, composition,
      style, lighting, color, mood, details, context. */
  lemma EmittedInOrder(e: PromptElements)
    ensures Increasing(Emitted(e))
    ensures forall i, j :: 0 <= i < j < |Emitted(e)| ==> Emitted(e)[i] != Emitted(e)[j]
  {
    AllFieldsIndexed();
    assert Increasing(AllFields);
    NonEmptyIncreasing(e, AllFields);
  }

  /** The part list is one part per contributing field, then the quality tokens. */
  lemma PromptPartsShape(e: PromptElements)
    ensures |PromptParts(e)| == |Emitted(e)| + 3
    ensures forall i :: 0 <= i < |Emitted(e)| ==> PromptParts(e)[i] == PartOf(e, Emitted(e)[i])
    ensures PromptParts(e)[|Emitted(e)|..] == QualityTokens
  {
  }

  /** Every field is empty. */
  predicate AllEmpty(e: PromptElements) {
    forall f :: Get(e, f) == ""
  }

  /** With every field empty the prompt is the quality text alone. */
  lemma EmptyPrompt(e: PromptElements)
    requires AllEmpty(e)
    ensures BasicPrompt(e) == QualityText
  {
    assert Emitted(e) == [];
    assert ContentParts(e, AllFields) == [];
    assert PromptParts(e) == QualityTokens;
    QualityJoin();
  }

  /** The quality tokens joined are the quality text. */
  lemma QualityJoin()
    ensures Join(QualityTokens, ", ") == QualityText
  {
    Join3("high quality", "detailed", "professional", ", ");
  }

  /** With some field set the prompt is the content parts, ", " and the quality text. */
  lemma ContentPrompt(e: PromptElements, f: Field)
    requires Get(e, f) != ""
    ensures BasicPrompt(e) == Join(ContentParts(e, AllFields), ", ") + ", " + QualityText
  {
    EmittedIff(e, f);
    var content := ContentParts(e, AllFields);
    assert |content| > 0;
    JoinAppend(content, QualityTokens, ", ");
    QualityJoin();
  }

  /** Every prompt ends in the quality tokens, and it is exactly the quality
      text precisely when every field is empty. */
  lemma QualityTail(e: PromptElements)
    ensures EndsWith(BasicPrompt(e), QualityText)
    ensures BasicPrompt(e) == QualityText <==> AllEmpty(e)
  {
    if AllEmpty(e) {
      EmptyPrompt(e);
    } else {
      var f :| Get(e, f) != "";
      ContentPrompt(e, f);
      var p := Join(ContentParts(e, AllFields), ", ") + ", ";
      assert BasicPrompt(e) == p + QualityText;
      assert |BasicPrompt(e)| > |QualityText|;
    }
  }

  /** A record with only a subject yields the subject followed by the quality text. */
  lemma SubjectOnly(e: PromptElements)
    requires e.subject != ""
    requires forall f :: f != Subject ==> Get(e, f) == ""
    ensures BasicPrompt(e) == e.subject + ", " + QualityText
  {
    OnlySubject(e, |AllFields|);
    assert AllFields[..|AllFields|] == AllFields;
    ContentPrompt(e, Subject);
  }

  /** Among the first `k` fields only the subject is non-empty. */
  lemma {:induction false} OnlySubject(e: PromptElements, k: nat)
    requires 1 <= k <= |AllFields|
    requires e.subject != ""
    requires forall f :: f != Subject ==> Get(e, f) == ""
    ensures NonEmpty(e, AllFields[..k]) == [Subject]
  {
    var fs := AllFields[..k];
    if k == 1 {
      assert fs == [Subject];
      assert fs[..0] == [];
    } else {
      OnlySubject(e, k - 1);
      AllFieldsIndexed();
      assert fs[..k - 1] == AllFields[..k - 1];
      assert Get(e, fs[k - 1]) == "";
    }
  }

  /** The part of a non-empty field contains its value. */
  lemma PartContainsValue(e: PromptElements, f: Field)
    ensures Contains(PartOf(e, f), Get(e, f))
  {
    assert PartOf(e, f) == Prefix(f) + Get(e, f) + "";
    ContainsInfix(Prefix(f), Get(e, f), "");
  }

  /** Every non-empty field value occurs in the prompt. */
  lemma ValueOccurs(e: PromptElements, f: Field)
    requires Get(e, f) != ""
    ensures Contains(BasicPrompt(e), Get(e, f))
  {
    EmittedIff(e, f);
    var i :| 0 <= i < |Emitted(e)| && Emitted(e)[i] == f;
    PromptPartsShape(e);
    JoinContainsPart(PromptParts(e), ", ", i);
    PartContainsValue(e, f);
    ContainsTransitive(BasicPrompt(e), PartOf(e, f), Get(e, f));
  }

  /** Details "wearing a hat" put "hat" into the prompt. */
  lemma HatExample(e: PromptElements)
    requires Contains(e.details, "hat")
    ensures Contains(BasicPrompt(e), "hat")
  {
    ValueOccurs(e, Details);
    ContainsTransitive(BasicPrompt(e), e.details, "hat");
  }

  /** "wearing a hat" contains "hat". */
  lemma HatInDetails(details: string)
    requires details == "wearing a hat"
    ensures Contains(details, "hat")
  {
    assert details == "wearing a " + "hat" + "";
    ContainsInfix("wearing a ", "hat", "");
  }
}
