/** The graphical front end's state and the operations that change it:
    the eight input variables of the form, the prompt text box and the
    status bar. Widgets, dialogs and message boxes are left out: a chosen
    file name is a parameter ("" when the dialog is cancelled), and so is
    what reading and decoding that file gives. */
module SimplePromptGenerator {
  import opened Wrappers
  import opened Text
  import opened Elements
  import opened Templates
  import opened Assembly
  import opened Examples

  /** The status bar text on start-up. */
  const Ready: string := "מוכן לשימוש"
  /** The status bar text after a prompt is generated. */
  const Generated: string := "פרומפט נוצר בהצלחה"
  /** The status bar text after the form is cleared. */
  const Cleared: string := "השדות נוקו"
  /** The status bar text after example `name` is loaded. */
  function ExampleLoaded(name: string): string {
    "נטענה דוגמא: " + name
  }

  /** Every field of `e` stripped of surrounding whitespace. */
  function Trimmed(e: PromptElements): PromptElements {
    FromFields(f => Strip(Get(e, f)))
  }

  /** Each field of the trimmed record is the stripped field, so it
      neither starts nor ends with whitespace. */
  lemma TrimmedFields(e: PromptElements)
    ensures forall f :: Get(Trimmed(e), f) == Strip(Get(e, f))
    ensures forall f :: |Get(Trimmed(e), f)| > 0 ==>
      !IsSpace(Get(Trimmed(e), f)[0]) && !IsSpace(Get(Trimmed(e), f)[|Get(Trimmed(e), f)| - 1])
  {
    GetFromFields(f => Strip(Get(e, f)));
  }

  /** Trimming a trimmed record changes nothing. */
  lemma TrimmedIdempotent(e: PromptElements)
    ensures Trimmed(Trimmed(e)) == Trimmed(e)
  {
    TrimmedFields(e);
    TrimmedFields(Trimmed(e));
    forall f
      ensures Get(Trimmed(Trimmed(e)), f) == Get(Trimmed(e), f)
    {
      StripIdempotent(Get(e, f));
    }
    Extensionality(Trimmed(Trimmed(e)), Trimmed(e));
  }

  class Gui {
    var subject: string
    var composition: string
    var style: string
    var lighting: string
    var color: string
    var mood: string
    var details: string
    var context: string
    /** The contents of the prompt text box. */
    var promptText: string
    /** The status bar text. */
    var status: string

    /** The raw contents of the eight input variables. */
    function Form(): PromptElements
      reads this
    {
      PromptElements(subject, composition, style, lighting, color, mood, details, context)
    }

    /** A fresh window: every input and the prompt box empty, the status "ready". */
    constructor()
      ensures Form() == Empty && promptText == "" && status == Ready
    {
      subject, composition, style, lighting := "", "", "", "";
      color, mood, details, context := "", "", "", "";
      promptText, status := "", Ready;
    }

    /** `get_elements`: the form as a record, every field stripped. */
    function GetElements(): PromptElements
      reads this
    {
      Trimmed(Form())
    }

    /** `set_elements`: the eight inputs take the record's values verbatim. */
    method SetElements(e: PromptElements)
      modifies this
      ensures Form() == e
      ensures promptText == old(promptText) && status == old(status)
    {
      subject := e.subject;
      composition := e.composition;
      style := e.style;
      lighting := e.lighting;
      color := e.color;
      mood := e.mood;
      details := e.details;
      context := e.context;
    }

    /** `create_basic_prompt`, statement for statement the same as the
        other two front ends'. */
    method CreateBasicPrompt(elements: PromptElements) returns (prompt: string)
      ensures prompt == BasicPrompt(elements)
    {
      var parts: seq<string> := [];
      if elements.subject != "" {
        parts := parts + [elements.subject];
      }
      assert parts == PartsUpTo(elements, 1);
      if elements.composition != "" {
        parts := parts + ["composition: " + elements.composition];
      }
      assert parts == PartsUpTo(elements, 2);
      if elements.style != "" {
        parts := parts + ["style: " + elements.style];
      }
      assert parts == PartsUpTo(elements, 3);
      if elements.lighting != "" {
        parts := parts + ["lighting: " + elements.lighting];
      }
      assert parts == PartsUpTo(elements, 4);
      if elements.color != "" {
        parts := parts + ["colors: " + elements.color];
      }
      assert parts == PartsUpTo(elements, 5);
      if elements.mood != "" {
        parts := parts + ["mood: " + elements.mood];
      }
      assert parts == PartsUpTo(elements, 6);
      if elements.details != "" {
        parts := parts + ["details: " + elements.details];
      }
      assert parts == PartsUpTo(elements, 7);
      if elements.context != "" {
        parts := parts + ["for: " + elements.context];
      }
      assert parts == PartsUpTo(elements, 8);
      PromptFromTests(elements, parts);
      parts := parts + ["high quality", "detailed", "professional"];
      prompt := Join(parts, ", ");
    }

    /** `generate_prompt`: with an empty stripped subject nothing changes
        (an error box is shown); otherwise the prompt box holds the prompt
        of the stripped form and the status says so. The form is never changed. */
    method GeneratePrompt()
      modifies this
      ensures Form() == old(Form())
      ensures old(GetElements()).subject == "" ==> promptText == old(promptText) && status == old(status)
      ensures old(GetElements()).subject != "" ==>
        promptText == BasicPrompt(old(GetElements())) && status == Generated
    {
      var elements := GetElements();
      if elements.subject == "" {
        return;
      }
      var prompt := CreateBasicPrompt(elements);
      promptText := prompt;
      status := Generated;
    }

    /** `save_template`: the key/value pairs written to `filename`, the
        stripped form in declaration order; nothing when the dialog was
        cancelled. */
    method SaveTemplate(filename: string) returns (written: Option<seq<(string, string)>>)
      ensures filename == "" ==> written == None
      ensures filename != "" ==> written == Some(ToEntries(GetElements()))
    {
      written := None;
      if filename != "" {
        var elements := GetElements();
        written := Some(ToEntries(elements));
      }
    }

    /** `load_template`: the form takes the decoded template when the dialog
        gave a file, the file decodes (`data`) and every key names a field;
        on any failure the form is left as it was. */
    method LoadTemplate(filename: string, data: Option<map<string, string>>)
      modifies this
      ensures filename != "" && data.Some? && FromMap(data.value).Some? ==> Form() == FromMap(data.value).value
      ensures !(filename != "" && data.Some? && FromMap(data.value).Some?) ==> Form() == old(Form())
      ensures promptText == old(promptText) && status == old(status)
    {
      if filename != "" && data.Some? {
        var built := FromMap(data.value);
        if built.Some? {
          SetElements(built.value);
        }
      }
    }

    /** `clear_all`: every input and the prompt box emptied. */
    method ClearAll()
      modifies this
      ensures Form() == Empty && promptText == "" && status == Cleared
    {
      SetElements(Empty);
      promptText := "";
      status := Cleared;
    }

    /** `load_example`: a known example fills the form and is announced in
        the status bar; any other name changes nothing. */
    method LoadExample(name: string)
      modifies this
      ensures name in ExampleNames ==> Some(Form()) == Example(name) && status == ExampleLoaded(name)
      ensures name !in ExampleNames ==> Form() == old(Form()) && status == old(status)
      ensures promptText == old(promptText)
    {
      var example := Example(name);
      if example.Some? {
        SetElements(example.value);
        status := ExampleLoaded(name);
      }
    }
  }

  /** Saving the form and loading the file back leaves the stripped form
      unchanged: the written pairs decode to the stripped record. */
  lemma SaveThenLoadKeepsForm(e: PromptElements)
    ensures FromMap(EntriesToMap(ToEntries(Trimmed(e)))) == Some(Trimmed(e))
    ensures Trimmed(FromMap(EntriesToMap(ToEntries(Trimmed(e)))).value) == Trimmed(e)
  {
    SavedEntriesReadBack(Trimmed(e));
    RoundTrip(Trimmed(e));
    TrimmedIdempotent(e);
  }
}
