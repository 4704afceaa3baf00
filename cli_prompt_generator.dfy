/** The command-line front end: its copy of the prompt assembler, template
    loading that lets a failure propagate, the example table with an
    empty-record default, and the decisions `main` takes before it prints a
    prompt. Printing is left out; `main`'s result is what it would print or
    write, as an `Outcome`. */
module CliPromptGenerator {
  import opened Wrappers
  import opened Elements
  import opened Templates
  import opened Assembly
  import opened Flags
  import opened Examples
  import opened Text

  /** `SimplePromptGenerator.create_basic_prompt`, statement for statement
      the same as the main program's. */
  method CreateBasicPrompt(elements: PromptElements) returns (prompt: string)
    ensures prompt == BasicPrompt(elements)
  {
    var parts: seq<string> := [];
    if elements.subject != "" {
      parts := parts + [elements.subject];
    }
    assert parts == PartsUpTo(elements, 1);
    if elements.composition != "" {
      parts := parts + ["composition: " + elements.composition];
    }
    assert parts == PartsUpTo(elements, 2);
    if elements.style != "" {
      parts := parts + ["style: " + elements.style];
    }
    assert parts == PartsUpTo(elements, 3);
    if elements.lighting != "" {
      parts := parts + ["lighting: " + elements.lighting];
    }
    assert parts == PartsUpTo(elements, 4);
    if elements.color != "" {
      parts := parts + ["colors: " + elements.color];
    }
    assert parts == PartsUpTo(elements, 5);
    if elements.mood != "" {
      parts := parts + ["mood: " + elements.mood];
    }
    assert parts == PartsUpTo(elements, 6);
    if elements.details != "" {
      parts := parts + ["details: " + elements.details];
    }
    assert parts == PartsUpTo(elements, 7);
    if elements.context != "" {
      parts := parts + ["for: " + elements.context];
    }
    assert parts == PartsUpTo(elements, 8);
    PromptFromTests(elements, parts);
    parts := parts + ["high quality", "detailed", "professional"];
    prompt := Join(parts, ", ");
  }

  /** `load_template`: the decoded template as a record. Nothing is caught:
      a file that cannot be read or decoded (`data == None`) and an object
      with a key that names no field both fail (`None`). */
  function LoadTemplate(data: Option<map<string, string>>): (r: Option<PromptElements>)
    ensures r.None? <==> data.None? || exists k :: k in data.value && k !in FieldKeys
    ensures r.Some? ==> forall f :: Get(r.value, f) == Lookup(data.value, Key(f))
  {
    match data
    case None => None
    case Some(m) => FromMap(m)
  }

  /** A template written by `save_template` loads back as the same record. */
  lemma SaveThenLoad(e: PromptElements)
    ensures LoadTemplate(Some(EntriesToMap(ToEntries(e)))) == Some(e)
  {
    SavedEntriesReadBack(e);
    RoundTrip(e);
  }

  /** `load_example`: the named example, or the empty record for any other name. */
  function LoadExample(name: string): (e: PromptElements)
    ensures name in ExampleNames ==> Some(e) == Example(name)
    ensures name !in ExampleNames ==> e == Empty
  {
    Example(name).GetOr(Empty)
  }

  /** A string option that Python treats as true: given and non-empty. */
  predicate Given(o: Option<string>) {
    o.Some? && o.value != ""
  }

  /** The parsed command line: the element flags, the template files, the
      example name (argparse restricts it to the example names) and
      `--examples`. */
  datatype CliArgs = CliArgs(
    flags: ElementFlags,
    saveTemplate: Option<string>,
    loadTemplate: Option<string>,
    example: Option<string>,
    examples: bool)

  /** What one run of `main` does. `Prompted` carries the record, the
      printed prompt and, when `--save-template` is given, the file name and
      the key/value pairs written to it. */
  datatype Outcome =
    | ShowedExamples
    | LoadFailed
    | MissingSubject
    | Prompted(elements: PromptElements, prompt: string, saved: Option<(string, seq<(string, string)>)>)

  /** The record `main` works on when loading does not fail: the example
      first, then the template, then the flags. */
  function ChosenElements(args: CliArgs, data: Option<map<string, string>>): PromptElements {
    if Given(args.example) then LoadExample(args.example.value)
    else if Given(args.loadTemplate) then LoadTemplate(data).GetOr(Empty)
    else FromFlags(args.flags)
  }

  /** `main` after argument parsing. `data` is what reading and decoding
      the `--load-template` file gives (`None` when that raises). */
  method Run(args: CliArgs, data: Option<map<string, string>>) returns (outcome: Outcome)
    ensures args.examples <==> outcome.ShowedExamples?
    ensures outcome.LoadFailed? <==>
      !args.examples && !Given(args.example) && Given(args.loadTemplate) && LoadTemplate(data).None?
    ensures outcome.MissingSubject? <==>
      !args.examples && !Given(args.loadTemplate) && ChosenElements(args, data).subject == ""
    ensures outcome.Prompted? ==> outcome.elements == ChosenElements(args, data)
    ensures outcome.Prompted? ==> outcome.elements.subject != "" || Given(args.loadTemplate)
    ensures outcome.Prompted? ==> outcome.prompt == BasicPrompt(outcome.elements)
    ensures outcome.Prompted? ==> (outcome.saved.Some? <==> Given(args.saveTemplate))
    ensures outcome.Prompted? && outcome.saved.Some? ==>
      outcome.saved.value == (args.saveTemplate.value, ToEntries(outcome.elements))
  {
    if args.examples {
      return ShowedExamples;
    }
    var elements: PromptElements;
    if Given(args.example) {
      elements := LoadExample(args.example.value);
    } else if Given(args.loadTemplate) {
      var loaded := LoadTemplate(data);
      if loaded.None? {
        return LoadFailed;
      }
      elements := loaded.value;
    } else {
      elements := FromFlags(args.flags);
    }
    if elements.subject == "" && !Given(args.loadTemplate) {
      return MissingSubject;
    }
    var prompt := CreateBasicPrompt(elements);
    var saved: Option<(string, seq<(string, string)>)> := None;
    if Given(args.saveTemplate) {
      saved := Some((args.saveTemplate.value, ToEntries(elements)));
    }
    outcome := Prompted(elements, prompt, saved);
  }

  /** Without a template, every example run prompts for the example's
      record, and a run from flags prompts exactly when `--subject` is a
      non-empty string. */
  lemma ExamplesAndFlagsPrompt(args: CliArgs, data: Option<map<string, string>>)
    requires !args.examples && !Given(args.loadTemplate)
    ensures Given(args.example) && args.example.value in ExampleNames ==>
      ChosenElements(args, data).subject != ""
    ensures !Given(args.example) ==>
      (ChosenElements(args, data).subject != "" <==> Given(args.flags.subject))
  {
    if Given(args.example) && args.example.value in ExampleNames {
      ExamplesFilled(args.example.value);
      assert Get(Example(args.example.value).value, Subject) != "";
    }
  }
}
