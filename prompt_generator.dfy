/** The generator class of the main program, `AIImagePromptGenerator`.
    Its only state is the chat/image client, which no operation modelled
    here changes, so its methods are modelled as methods of this module.
    Every reply of the chat service is a parameter: `None` stands for a
    call that raised, `Some(t)` for the message text `t`. */
module PromptGenerator {
  import opened Wrappers
  import opened Text
  import opened Elements
  import opened Templates
  import opened Assembly
  import opened LineParser
  import opened Flags

  // ---------------------------------------------------------------------------
  // create_basic_prompt

  /** Appends one part per non-empty field, in declaration order, then the
      quality tokens, and joins the list with ", ". */
  method CreateBasicPrompt(elements: PromptElements) returns (prompt: string)
    ensures prompt == BasicPrompt(elements)
  {
    var parts: seq<string> := [];
    if elements.subject != "" {
      parts := parts + [elements.subject];
    }
    assert parts == PartsUpTo(elements, 1);
    if elements.composition != "" {
      parts := parts + ["composition: " + elements.composition];
    }
    assert parts == PartsUpTo(elements, 2);
    if elements.style != "" {
      parts := parts + ["style: " + elements.style];
    }
    assert parts == PartsUpTo(elements, 3);
    if elements.lighting != "" {
      parts := parts + ["lighting: " + elements.lighting];
    }
    assert parts == PartsUpTo(elements, 4);
    if elements.color != "" {
      parts := parts + ["colors: " + elements.color];
    }
    assert parts == PartsUpTo(elements, 5);
    if elements.mood != "" {
      parts := parts + ["mood: " + elements.mood];
    }
    assert parts == PartsUpTo(elements, 6);
    if elements.details != "" {
      parts := parts + ["details: " + elements.details];
    }
    assert parts == PartsUpTo(elements, 7);
    if elements.context != "" {
      parts := parts + ["for: " + elements.context];
    }
    assert parts == PartsUpTo(elements, 8);
    PromptFromTests(elements, parts);
    parts := parts + ["high quality", "detailed", "professional"];
    prompt := Join(parts, ", ");
  }

  // ---------------------------------------------------------------------------
  // _parse_elements_from_text

  /** Runs the keyword chain over every line of `text`. */
  method ParseElementsFromText(text: string) returns (elements: PromptElements)
    ensures elements == ParseText(text)
  {
    elements := Empty;
    var lines := Split(text, '\n');
    for i := 0 to |lines|
      invariant elements == ParseLines(lines[..i])
    {
      assert lines[..i + 1][..i] == lines[..i];
      var line := Lower(Strip(lines[i]));
      if Contains(line, "subject") || Contains(line, "נושא") {
        elements := elements.(subject := ValueOf(line));
      } else if Contains(line, "composition") || Contains(line, "קומפוזיציה") {
        elements := elements.(composition := ValueOf(line));
      } else if Contains(line, "style") || Contains(line, "סגנון") {
        elements := elements.(style := ValueOf(line));
      } else if Contains(line, "lighting") || Contains(line, "תאורה") {
        elements := elements.(lighting := ValueOf(line));
      } else if Contains(line, "color") || Contains(line, "צבע") {
        elements := elements.(color := ValueOf(line));
      } else if Contains(line, "mood") || Contains(line, "מצב רוח") {
        elements := elements.(mood := ValueOf(line));
      } else if Contains(line, "details") || Contains(line, "פרטים") {
        elements := elements.(details := ValueOf(line));
      } else if Contains(line, "context") || Contains(line, "הקשר") {
        elements := elements.(context := ValueOf(line));
      }
    }
    assert lines[..|lines|] == lines;
  }

  // ---------------------------------------------------------------------------
  // reverse_engineer_prompt

  /** `s[i..j + 1]` runs from the first '{' of `s` to its last '}'. */
  ghost predicate GreedySpan(s: string, i: int, j: int) {
    && 0 <= i < j < |s|
    && s[i] == '{' && s[j] == '}'
    && (forall k :: 0 <= k < i ==> s[k] != '{')
    && (forall k :: j < k < |s| ==> s[k] != '}')
  }

  /** What `re.search(r'\{.*\}', s, re.DOTALL)` matches: the leftmost match
      starts at the first '{', and the greedy `.*` extends it to the last
      '}'. There is a match exactly when some '}' follows some '{'. */
  function JsonSpan(s: string): (r: Option<string>)
    ensures r.Some? <==> exists i, j :: 0 <= i < j < |s| && s[i] == '{' && s[j] == '}'
    ensures r.Some? ==> exists i, j :: GreedySpan(s, i, j) && r.value == s[i..j + 1]
  {
    var i := Find(s, '{');
    var j := RFind(s, '}');
    if i < j then
      assert GreedySpan(s, i, j);
      Some(s[i..j + 1])
    else
      assert forall a, b :: 0 <= a < b < |s| && s[a] == '{' && s[b] == '}' ==> i <= a && b <= j;
      None
  }

  /** The record the JSON branch of `reverse_engineer_prompt` returns, or
      `None` when control falls through to the line parser: no span, a span
      `loads` rejects, or an object with a key that names no field. */
  function JsonCandidate(result: string, loads: string -> Option<map<string, string>>): Option<PromptElements> {
    match JsonSpan(result)
    case None => None
    case Some(span) =>
      match loads(span)
      case None => None
      case Some(data) => FromMap(data)
  }

  /** Strips the reply, tries the JSON branch and falls back to the line
      parser on the same text; a failed chat call gives the empty record. */
  method ReverseEngineerPrompt(reply: Option<string>, loads: string -> Option<map<string, string>>)
    returns (elements: PromptElements)
    ensures reply.None? ==> elements == Empty
    ensures reply.Some? && JsonCandidate(Strip(reply.value), loads).Some? ==>
      elements == JsonCandidate(Strip(reply.value), loads).value
    ensures reply.Some? && JsonCandidate(Strip(reply.value), loads).None? ==>
      elements == ParseText(Strip(reply.value))
  {
    if reply.None? {
      return Empty;
    }
    var result := Strip(reply.value);
    var span := JsonSpan(result);
    if span.Some? {
      var data := loads(span.value);
      if data.Some? {
        var built := FromMap(data.value);
        if built.Some? {
          return built.value;
        }
      }
    }
    elements := ParseElementsFromText(result);
  }

  /** The JSON branch is taken exactly when the span exists, `loads` accepts
      it and every key of the object names a field; the record then takes
      each field from its key, "" for a missing one. */
  lemma JsonCandidateCases(result: string, loads: string -> Option<map<string, string>>)
    ensures JsonCandidate(result, loads).Some? <==>
      && JsonSpan(result).Some?
      && loads(JsonSpan(result).value).Some?
      && loads(JsonSpan(result).value).value.Keys <= FieldKeys
    ensures JsonCandidate(result, loads).Some? ==>
      forall f :: Get(JsonCandidate(result, loads).value, f) == Lookup(loads(JsonSpan(result).value).value, Key(f))
  {
  }

  /** A text without '{' never takes the JSON branch. */
  lemma NoBraceFallsBack(result: string, loads: string -> Option<map<string, string>>)
    requires '{' !in result
    ensures JsonCandidate(result, loads) == None
  {
  }

  /** A reply that is one object, "{...}", is its own span. */
  lemma WholeObjectSpan(s: string)
    requires |s| >= 2 && s[0] == '{' && s[|s| - 1] == '}'
    ensures JsonSpan(s) == Some(s)
  {
    assert s[0..|s|] == s;
  }

  // ---------------------------------------------------------------------------
  // enhance_prompt_with_ai

  /** The enhanced prompt: the stripped reply of the chat service, or the
      basic prompt unchanged when the call raises. `chat` maps the basic
      prompt and the target use to the reply. */
  function EnhancePrompt(chat: (string, string) -> Option<string>, basic: string, targetUse: string): (r: string)
    ensures chat(basic, targetUse).None? ==> r == basic
    ensures chat(basic, targetUse).Some? ==> r == Strip(chat(basic, targetUse).value)
  {
    match chat(basic, targetUse)
    case None => basic
    case Some(t) => Strip(t)
  }

  // ---------------------------------------------------------------------------
  // create_campaign_prompts

  /** `f"brand colors: {', '.join(brand_colors)}" if brand_colors else ""`. */
  function ColorsText(colors: Option<seq<string>>): (r: string)
    ensures r == "" <==> colors.None? || |colors.value| == 0
    ensures r != "" ==> StartsWith(r, "brand colors: ")
  {
    if colors.None? || |colors.value| == 0 then "" else "brand colors: " + Join(colors.value, ", ")
  }

  /** Every given colour appears in the colour text. */
  lemma ColorsListed(colors: seq<string>, k: nat)
    requires k < |colors|
    ensures Contains(ColorsText(Some(colors)), colors[k])
  {
    var joined := Join(colors, ", ");
    JoinContainsPart(colors, ", ", k);
    assert ColorsText(Some(colors)) == "brand colors: " + joined + "";
    ContainsInfix("brand colors: ", joined, "");
    ContainsTransitive(ColorsText(Some(colors)), joined, colors[k]);
  }

  /** The campaign's templates, keyed, in the order they are enhanced. */
  function CampaignTemplates(businessType: string, colorsText: string): seq<(string, string)> {
    [ ("logo", "minimalist logo design for " + businessType + ", " + colorsText
               + ", clean, professional, vector style"),
      ("instagram_post", "Instagram post design for " + businessType + ", " + colorsText
               + ", engaging, modern, social media optimized"),
      ("hero_image", "hero banner image for " + businessType + " website, " + colorsText
               + ", professional, engaging, wide format"),
      ("avatar", "profile avatar for " + businessType + ", " + colorsText
               + ", circular, clean, recognizable") ]
  }

  /** The four campaign keys. */
  const CampaignKeys: set<string> := {"logo", "instagram_post", "hero_image", "avatar"}

  /** The templates carry the four keys, each once, and every template
      names the business type and holds the colour text. */
  lemma TemplatesShape(businessType: string, colorsText: string)
    ensures |CampaignTemplates(businessType, colorsText)| == 4
    ensures forall i :: 0 <= i < 4 ==> CampaignTemplates(businessType, colorsText)[i].0 in CampaignKeys
    ensures forall k :: k in CampaignKeys ==> exists i :: 0 <= i < 4 && CampaignTemplates(businessType, colorsText)[i].0 == k
    ensures forall i, j :: 0 <= i < j < 4 ==>
      CampaignTemplates(businessType, colorsText)[i].0 != CampaignTemplates(businessType, colorsText)[j].0
    ensures forall i :: 0 <= i < 4 ==> Contains(CampaignTemplates(businessType, colorsText)[i].1, businessType)
    ensures forall i :: 0 <= i < 4 ==> Contains(CampaignTemplates(businessType, colorsText)[i].1, colorsText)
  {
    var t := CampaignTemplates(businessType, colorsText);
    assert t[0].0 == "logo" && t[1].0 == "instagram_post" && t[2].0 == "hero_image" && t[3].0 == "avatar";
    TemplateMentions("minimalist logo design for ", businessType, ", ", colorsText,
      ", clean, professional, vector style");
    TemplateMentions("Instagram post design for ", businessType, ", ", colorsText,
      ", engaging, modern, social media optimized");
    TemplateMentions("hero banner image for ", businessType, " website, ", colorsText,
      ", professional, engaging, wide format");
    TemplateMentions("profile avatar for ", businessType, ", ", colorsText,
      ", circular, clean, recognizable");
  }

  /** A template `a + x + b + y + c` contains `x` and `y`. */
  lemma TemplateMentions(a: string, x: string, b: string, y: string, c: string)
    ensures Contains(a + x + b + y + c, x)
    ensures Contains(a + x + b + y + c, y)
  {
    assert a + x + b + y + c == a + x + (b + y + c);
    ContainsInfix(a, x, b + y + c);
    assert a + x + b + y + c == (a + x + b) + y + c;
    ContainsInfix(a + x + b, y, c);
  }

  /** Builds the four templates and enhances each one for the target use
      "marketing for <business type>". */
  method CreateCampaignPrompts(businessType: string, brandColors: Option<seq<string>>,
                               chat: (string, string) -> Option<string>)
    returns (enhanced: map<string, string>)
    ensures enhanced.Keys == CampaignKeys
    ensures forall i :: 0 <= i < 4 ==>
      var (key, template) := CampaignTemplates(businessType, ColorsText(brandColors))[i];
      enhanced[key] == EnhancePrompt(chat, template, "marketing for " + businessType)
  {
    var colorsText := ColorsText(brandColors);
    var prompts := CampaignTemplates(businessType, colorsText);
    var target := "marketing for " + businessType;
    TemplatesShape(businessType, colorsText);
    enhanced := map[];
    for i := 0 to |prompts|
      invariant enhanced.Keys == set j | 0 <= j < i :: prompts[j].0
      invariant forall j :: 0 <= j < i ==> enhanced[prompts[j].0] == EnhancePrompt(chat, prompts[j].1, target)
    {
      var (key, prompt) := prompts[i];
      enhanced := enhanced[key := EnhancePrompt(chat, prompt, target)];
    }
  }

  // ---------------------------------------------------------------------------
  // save_elements_template / load_elements_template

  /** `load_elements_template`: the record of the decoded template, or the
      empty record when reading or decoding fails (`data == None`) or the
      object has a key that names no field. */
  function LoadElementsTemplate(data: Option<map<string, string>>): (e: PromptElements)
    ensures data.None? ==> e == Empty
    ensures data.Some? && (exists k :: k in data.value && k !in FieldKeys) ==> e == Empty
    ensures data.Some? && data.value.Keys <= FieldKeys ==>
      forall f :: Get(e, f) == Lookup(data.value, Key(f))
  {
    match data
    case None => Empty
    case Some(m) => FromMap(m).GetOr(Empty)
  }

  /** A saved template loads back as the record it was saved from. */
  lemma SaveThenLoad(e: PromptElements)
    ensures LoadElementsTemplate(Some(EntriesToMap(ToEntries(e)))) == e
  {
    SavedEntriesReadBack(e);
    RoundTrip(e);
  }

  // ---------------------------------------------------------------------------
  // main

  /** The record `main` prompts for: the loaded template when
      `--load-template` is given (the empty record when loading fails),
      otherwise the record built from the flags. `--subject` is required,
      so `flags.subject` is present on this path. */
  function MainElements(flags: ElementFlags, loadTemplate: Option<string>,
                        data: Option<map<string, string>>): (e: PromptElements)
    ensures loadTemplate.Some? && loadTemplate.value != "" ==> e == LoadElementsTemplate(data)
    ensures loadTemplate.None? || loadTemplate.value == "" ==> e == FromFlags(flags)
  {
    if loadTemplate.Some? && loadTemplate.value != "" then LoadElementsTemplate(data) else FromFlags(flags)
  }
}
