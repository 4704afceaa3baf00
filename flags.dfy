/** The element flags of the two command-line front ends and the record
    built from them. argparse restricts `--composition`, `--style`,
    `--lighting` and `--mood` to the values of their vocabularies, so those
    flags are typed by the vocabulary; an absent flag is `None`. */
module Flags {
  import opened Wrappers
  import opened Elements

  datatype ElementFlags = ElementFlags(
    subject: Option<string>,
    composition: Option<CompositionType>,
    style: Option<StyleCategory>,
    lighting: Option<LightingType>,
    colors: Option<string>,
    mood: Option<MoodType>,
    details: Option<string>,
    context: Option<string>)

  /** `PromptElements(subject=args.subject or "", ..., color=args.colors or "", ...)`:
      every absent flag becomes "", and `--colors` fills the `color` field. */
  function FromFlags(flags: ElementFlags): (e: PromptElements)
    ensures flags.subject.None? ==> e.subject == ""
    ensures flags.colors.None? ==> e.color == ""
    ensures flags.details.None? ==> e.details == ""
    ensures flags.context.None? ==> e.context == ""
    ensures flags.subject.Some? ==> e.subject == flags.subject.value
    ensures flags.colors.Some? ==> e.color == flags.colors.value
    ensures flags.details.Some? ==> e.details == flags.details.value
    ensures flags.context.Some? ==> e.context == flags.context.value
  {
    PromptElements(
      flags.subject.GetOr(""),
      match flags.composition case None => "" case Some(c) => c.Value(),
      match flags.style case None => "" case Some(s) => s.Value(),
      match flags.lighting case None => "" case Some(l) => l.Value(),
      flags.colors.GetOr(""),
      match flags.mood case None => "" case Some(m) => m.Value(),
      flags.details.GetOr(""),
      flags.context.GetOr(""))
  }

  /** A vocabulary flag is absent exactly when its field is empty, and a
      present one leaves in its field the value that names it. */
  lemma VocabularyFlags(flags: ElementFlags)
    ensures flags.composition.None? <==> FromFlags(flags).composition == ""
    ensures flags.style.None? <==> FromFlags(flags).style == ""
    ensures flags.lighting.None? <==> FromFlags(flags).lighting == ""
    ensures flags.mood.None? <==> FromFlags(flags).mood == ""
    ensures CompositionFromValue(FromFlags(flags).composition) == flags.composition
    ensures StyleFromValue(FromFlags(flags).style) == flags.style
    ensures LightingFromValue(FromFlags(flags).lighting) == flags.lighting
    ensures MoodFromValue(FromFlags(flags).mood) == flags.mood
  {
    var e := FromFlags(flags);
    if flags.composition.Some? {
      assert e.composition == flags.composition.value.Value();
    } else {
      assert CompositionFromValue("") == None;
    }
    if flags.style.Some? {
      assert e.style == flags.style.value.Value();
    } else {
      assert StyleFromValue("") == None;
    }
    if flags.lighting.Some? {
      assert e.lighting == flags.lighting.value.Value();
    } else {
      assert LightingFromValue("") == None;
    }
    if flags.mood.Some? {
      assert e.mood == flags.mood.value.Value();
    } else {
      assert MoodFromValue("") == None;
    }
  }
}
