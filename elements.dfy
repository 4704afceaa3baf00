/** The 8-field element record `PromptElements` and the four closed
    vocabularies offered for its style, lighting, mood and composition
    fields. The record and the vocabularies are declared identically in
    all three front ends. */
module Elements {
  import opened Wrappers

  /** One prompt in progress. Every field defaults to the empty string. */
  datatype PromptElements = PromptElements(
    subject: string,
    composition: string,
    style: string,
    lighting: string,
    color: string,
    mood: string,
    details: string,
    context: string)

  /** `PromptElements()`: the record with every field empty. */
  const Empty := PromptElements("", "", "", "", "", "", "", "")

  /** The names of the record's fields. */
  datatype Field = Subject | Composition | Style | Lighting | Color | Mood | Details | Context

  /** The fields in declaration order. */
  const AllFields: seq<Field> := [Subject, Composition, Style, Lighting, Color, Mood, Details, Context]

  /** Position of a field in declaration order. */
  function Index(f: Field): (i: nat)
    ensures i < |AllFields| && AllFields[i] == f
  {
    match f
    case Subject => 0
    case Composition => 1
    case Style => 2
    case Lighting => 3
    case Color => 4
    case Mood => 5
    case Details => 6
    case Context => 7
  }

  /** `AllFields` lists each field once, at its own index. */
  lemma AllFieldsIndexed()
    ensures forall i :: 0 <= i < |AllFields| ==> Index(AllFields[i]) == i
  {
    assert Index(AllFields[0]) == 0 && Index(AllFields[1]) == 1;
    assert Index(AllFields[2]) == 2 && Index(AllFields[3]) == 3;
    assert Index(AllFields[4]) == 4 && Index(AllFields[5]) == 5;
    assert Index(AllFields[6]) == 6 && Index(AllFields[7]) == 7;
  }

  /** The attribute name of a field, which is also its template key. */
  function Key(f: Field): string {
    match f
    case Subject => "subject"
    case Composition => "composition"
    case Style => "style"
    case Lighting => "lighting"
    case Color => "color"
    case Mood => "mood"
    case Details => "details"
    case Context => "context"
  }

  /** The eight attribute names. */
  const FieldKeys: set<string> := {"subject", "composition", "style", "lighting", "color", "mood", "details", "context"}

  /** The field an attribute name denotes, if any. */
  function FieldOfKey(k: string): (r: Option<Field>)
    ensures r.Some? <==> k in FieldKeys
    ensures r.Some? ==> Key(r.value) == k
    ensures forall f :: Key(f) == k ==> r == Some(f)
  {
    if k == "subject" then Some(Subject)
    else if k == "composition" then Some(Composition)
    else if k == "style" then Some(Style)
    else if k == "lighting" then Some(Lighting)
    else if k == "color" then Some(Color)
    else if k == "mood" then Some(Mood)
    else if k == "details" then Some(Details)
    else if k == "context" then Some(Context)
    else None
  }

  /** `getattr(elements, f)`. */
  function Get(e: PromptElements, f: Field): string {
    match f
    case Subject => e.subject
    case Composition => e.composition
    case Style => e.style
    case Lighting => e.lighting
    case Color => e.color
    case Mood => e.mood
    case Details => e.details
    case Context => e.context
  }

  /** The record after `elements.f = v`: field `f` holds `v`, the other
      seven are unchanged. */
  function With(e: PromptElements, f: Field, v: string): (r: PromptElements)
    ensures Get(r, f) == v
    ensures forall g :: g != f ==> Get(r, g) == Get(e, g)
  {
    match f
    case Subject => e.(subject := v)
    case Composition => e.(composition := v)
    case Style => e.(style := v)
    case Lighting => e.(lighting := v)
    case Color => e.(color := v)
    case Mood => e.(mood := v)
    case Details => e.(details := v)
    case Context => e.(context := v)
  }

  /** The record whose field `f` holds `value(f)`. */
  function FromFields(value: Field -> string): PromptElements {
    PromptElements(value(Subject), value(Composition), value(Style), value(Lighting),
                   value(Color), value(Mood), value(Details), value(Context))
  }

  /** Each field of `FromFields(value)` is the given value. */
  lemma GetFromFields(value: Field -> string)
    ensures forall f :: Get(FromFields(value), f) == value(f)
  {
  }

  /** Two records with the same value in every field are equal (dataclass
      equality compares the eight fields). */
  lemma Extensionality(a: PromptElements, b: PromptElements)
    requires forall f :: Get(a, f) == Get(b, f)
    ensures a == b
  {
    assert Get(a, Subject) == Get(b, Subject) && Get(a, Composition) == Get(b, Composition);
    assert Get(a, Style) == Get(b, Style) && Get(a, Lighting) == Get(b, Lighting);
    assert Get(a, Color) == Get(b, Color) && Get(a, Mood) == Get(b, Mood);
    assert Get(a, Details) == Get(b, Details) && Get(a, Context) == Get(b, Context);
  }

  /** Distinct fields have distinct attribute names, and they are exactly `FieldKeys`. */
  lemma KeysDistinct()
    ensures forall f, g :: Key(f) == Key(g) ==> f == g
    ensures forall f :: Key(f) in FieldKeys
    ensures forall k :: k in FieldKeys ==> exists f :: Key(f) == k
  {
    forall k | k in FieldKeys
      ensures exists f :: Key(f) == k
    {
      var f := FieldOfKey(k).value;
      assert Key(f) == k;
    }
  }

  // ---------------------------------------------------------------------------
  // Closed vocabularies: each member and the display string it stands for

  datatype StyleCategory =
    | Realistic | Cartoon | Watercolor | OilPainting | Sketch
    | Render3D | Minimalist | Vintage | Modern | Photography
  {
    function Value(): (v: string)
      ensures v != ""
    {
      match this
      case Realistic => "realistic"
      case Cartoon => "cartoon"
      case Watercolor => "watercolor"
      case OilPainting => "oil painting"
      case Sketch => "sketch"
      case Render3D => "3D render"
      case Minimalist => "minimalist"
      case Vintage => "vintage"
      case Modern => "modern"
      case Photography => "professional photography"
    }
  }

  /** `StyleCategory(v)`: the member whose value is `v`, if any. */
  function StyleFromValue(v: string): (r: Option<StyleCategory>)
    ensures r.Some? ==> r.value.Value() == v
    ensures forall s: StyleCategory :: s.Value() == v ==> r == Some(s)
  {
    if v == "realistic" then Some(Realistic)
    else if v == "cartoon" then Some(Cartoon)
    else if v == "watercolor" then Some(Watercolor)
    else if v == "oil painting" then Some(OilPainting)
    else if v == "sketch" then Some(Sketch)
    else if v == "3D render" then Some(Render3D)
    else if v == "minimalist" then Some(Minimalist)
    else if v == "vintage" then Some(Vintage)
    else if v == "modern" then Some(Modern)
    else if v == "professional photography" then Some(Photography)
    else None
  }

  datatype LightingType =
    | SoftMorning | DramaticSunset | Studio | NaturalDaylight | MoodyShadows | BrightAiry
  {
    function Value(): (v: string)
      ensures v != ""
    {
      match this
      case SoftMorning => "soft morning light"
      case DramaticSunset => "dramatic sunset"
      case Studio => "studio lighting"
      case NaturalDaylight => "natural daylight"
      case MoodyShadows => "moody shadows"
      case BrightAiry => "bright and airy"
    }
  }

  /** `LightingType(v)`. */
  function LightingFromValue(v: string): (r: Option<LightingType>)
    ensures r.Some? ==> r.value.Value() == v
    ensures forall l: LightingType :: l.Value() == v ==> r == Some(l)
  {
    if v == "soft morning light" then Some(SoftMorning)
    else if v == "dramatic sunset" then Some(DramaticSunset)
    else if v == "studio lighting" then Some(Studio)
    else if v == "natural daylight" then Some(NaturalDaylight)
    else if v == "moody shadows" then Some(MoodyShadows)
    else if v == "bright and airy" then Some(BrightAiry)
    else None
  }

  datatype MoodType =
    | Energetic | Calm | Mysterious | Professional | Playful | Elegant | Rustic | Futuristic
  {
    function Value(): (v: string)
      ensures v != ""
    {
      match this
      case Energetic => "energetic"
      case Calm => "calm"
      case Mysterious => "mysterious"
      case Professional => "professional"
      case Playful => "playful"
      case Elegant => "elegant"
      case Rustic => "rustic"
      case Futuristic => "futuristic"
    }
  }

  /** `MoodType(v)`. */
  function MoodFromValue(v: string): (r: Option<MoodType>)
    ensures r.Some? ==> r.value.Value() == v
    ensures forall m: MoodType :: m.Value() == v ==> r == Some(m)
  {
    if v == "energetic" then Some(Energetic)
    else if v == "calm" then Some(Calm)
    else if v == "mysterious" then Some(Mysterious)
    else if v == "professional" then Some(Professional)
    else if v == "playful" then Some(Playful)
    else if v == "elegant" then Some(Elegant)
    else if v == "rustic" then Some(Rustic)
    else if v == "futuristic" then Some(Futuristic)
    else None
  }

  datatype CompositionType =
    | CloseUp | WideAngle | BirdsEye | LowAngle | Symmetrical | RuleOfThirds
  {
    function Value(): (v: string)
      ensures v != ""
    {
      match this
      case CloseUp => "close-up portrait"
      case WideAngle => "wide angle"
      case BirdsEye => "bird's eye view"
      case LowAngle => "low angle"
      case Symmetrical => "symmetrical"
      case RuleOfThirds => "rule of thirds"
    }
  }

  /** `CompositionType(v)`. */
  function CompositionFromValue(v: string): (r: Option<CompositionType>)
    ensures r.Some? ==> r.value.Value() == v
    ensures forall c: CompositionType :: c.Value() == v ==> r == Some(c)
  {
    if v == "close-up portrait" then Some(CloseUp)
    else if v == "wide angle" then Some(WideAngle)
    else if v == "bird's eye view" then Some(BirdsEye)
    else if v == "low angle" then Some(LowAngle)
    else if v == "symmetrical" then Some(Symmetrical)
    else if v == "rule of thirds" then Some(RuleOfThirds)
    else None
  }
}
