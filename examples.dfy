/** The ready-made example records offered under the names "cat", "logo"
    and "landscape". The command-line and the graphical front end declare
    the same table. */
module Examples {
  import opened Wrappers
  import opened Elements

  /** The names of the examples. */
  const ExampleNames: set<string> := {"cat", "logo", "landscape"}

  /** A white Persian cat, close up. */
  const Cat := PromptElements(
    "חתול פרסי לבן", "close-up portrait", "professional photography", "soft morning light",
    "גוונים חמים", "calm", "עיניים כחולות, פרווה רכה", "צילום מקצועי")

  /** A minimalist logo. */
  const Logo := PromptElements(
    "לוגו מינימליסטי", "symmetrical", "minimalist", "clean lighting",
    "כחול וצבעי אמון", "professional", "פשוט וזכיר", "מיתוג עסקי")

  /** A mountain lake at sunset. */
  const Landscape := PromptElements(
    "נוף הרים עם אגם", "wide angle", "realistic", "dramatic sunset",
    "צבעי זהב וכתום", "calm", "השתקפויות במים", "צילום טבע")

  /** The example stored under `name`, if there is one. */
  function Example(name: string): (r: Option<PromptElements>)
    ensures r.Some? <==> name in ExampleNames
  {
    if name == "cat" then Some(Cat)
    else if name == "logo" then Some(Logo)
    else if name == "landscape" then Some(Landscape)
    else None
  }

  /** Every example fills all eight fields, and its composition, style and
      mood are values of their vocabularies. The logo's lighting "clean
      lighting" is not a value of the lighting vocabulary; the other two
      examples' lighting is. */
  lemma ExamplesFilled(name: string)
    requires name in ExampleNames
    ensures forall f :: Get(Example(name).value, f) != ""
    ensures CompositionFromValue(Example(name).value.composition).Some?
    ensures StyleFromValue(Example(name).value.style).Some?
    ensures MoodFromValue(Example(name).value.mood).Some?
    ensures LightingFromValue(Example(name).value.lighting).Some? <==> name != "logo"
  {
    assert CompositionFromValue(Cat.composition) == Some(CloseUp);
    assert StyleFromValue(Cat.style) == Some(Photography);
    assert MoodFromValue(Cat.mood) == Some(Calm);
    assert LightingFromValue(Cat.lighting) == Some(SoftMorning);
    assert CompositionFromValue(Logo.composition) == Some(Symmetrical);
    assert StyleFromValue(Logo.style) == Some(Minimalist);
    assert MoodFromValue(Logo.mood) == Some(Professional);
    assert LightingFromValue(Logo.lighting) == None;
    assert CompositionFromValue(Landscape.composition) == Some(WideAngle);
    assert StyleFromValue(Landscape.style) == Some(Realistic);
    assert MoodFromValue(Landscape.mood) == Some(Calm);
    assert LightingFromValue(Landscape.lighting) == Some(DramaticSunset);
  }
}
