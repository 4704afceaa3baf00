# prmpt_pic prompt kernel in Dafny

prmpt_pic builds text prompts for image generators from an eight-field
record, `PromptElements` (subject, composition, style, lighting, color,
mood, details, context). The repository holds three copies of the kernel,
one in each of these front ends (the Tk GUI in `gui_prompt_generator.py`
is a fourth front end that reuses the main program's copy):

- the main program `ai_prompt_generator.py`, with its generator class and command line;
- a command-line version, `cli_prompt_generator.py`;
- a Tk window, `simple_prompt_generator.py`.

This project models that kernel and proves what it promises:

- **Prompt assembler** (`create_basic_prompt`, three identical copies).
  Each copy is modelled as an imperative method. Each is proved equal to one
  specification, `Assembly.BasicPrompt`, and the ordering, presence and
  tail properties are proved about that specification.
- **Line parser** (`_parse_elements_from_text`). It is a loop over the lines.
  It is proved equal to a fold, `LineParser.ParseText`, with lemmas for
  first-match-wins, last-write-wins, untouched fields and the value after
  the last ':'.
- **JSON branch of `reverse_engineer_prompt`**.
  - The greedy `\{.*\}` span is specified as first '{' to last '}'.
  - `json.loads` is a parameter: an abstract partial function.
  - The fallback to the line parser is stated for every way the JSON branch
    can fail.
- **Templates.**
  - Saving writes `elements.__dict__`: the eight keys in declaration order.
  - Loading is `PromptElements(**data)`: missing keys become "" and an
    unknown key is an error.
  - This holds at the level of key/value maps, with a round-trip law.
  - Each front end handles a failed load its own way, and each way is modelled:
    - the main program falls back to the empty record;
    - the command line propagates the error to `main`, which stops;
    - the window leaves the form unchanged.
- **Campaign builder** (`create_campaign_prompts`). It fills a map in a loop.
  The four fixed templates are enhanced by an abstract chat function.
- **Command-line decisions.**
  - The record built from the flags, with the vocabulary flags typed by
    their enumerations.
  - The example table.
  - The order in which `main` picks the example, the template or the flags.
  - The subject guard and the `--save-template` output, as an `Outcome` value.
- **Window state** (`SimplePromptGeneratorGUI`). It is a class holding:
  - the eight input variables;
  - the prompt box;
  - the status bar.

  The operations on it are `get_elements` (stripping), `set_elements`,
  `generate_prompt` (subject guard), `save_template`, `load_template`,
  `clear_all` and `load_example`.

All three copies of `PromptElements` and of the four vocabularies
(`StyleCategory`, `LightingType`, `MoodType`, `CompositionType`) are the
same. They are modelled once in `Elements`.

Every call that leaves the process is a parameter of the model:

- the chat service (`Option<string>`, `None` when the call raises);
- `json.loads` of a reply span;
- reading or decoding a template file (`Option<map<string, string>>`);
- the file dialogs (a file name, "" when cancelled).

Files, one module each:
`wrappers.dfy`, `text.dfy` (the Python string operations used),
`elements.dfy`, `templates.dfy`, `assembly.dfy`, `line_parser.dfy`,
`flags.dfy`, `examples.dfy`, `prompt_generator.dfy` (main program),
`cli_prompt_generator.dfy`, `simple_prompt_generator.dfy`.

The JSON extraction searches with the regular expression `\{.*\}` under
DOTALL. The greedy `.*` runs to the *last* '}'. So for a reply holding
two objects, the candidate is everything from the first '{' to the last
'}', not the first object. `PromptGenerator.JsonSpan` models this greedy
behaviour.

## Model

| member | source | states |
|---|---|---|
| Elements.Index | ai_prompt_generator.py:20-30 | each field has a position in declaration order, and `AllFields` holds the field at that position |
| Elements.AllFieldsIndexed | ai_prompt_generator.py:20-30 | the eight fields are listed once each, in declaration order |
| Elements.FieldOfKey | ai_prompt_generator.py:20-30 | an attribute name denotes a field exactly when it is one of the eight field names; that field's name is the given name, and no other field has it |
| Elements.KeysDistinct | ai_prompt_generator.py:20-30 | distinct fields have distinct attribute names, and the names are exactly the eight keys |
| Elements.With | ai_prompt_generator.py:259-274 | assigning `elements.f = v` sets field f to v and leaves the other seven fields as they were |
| Elements.GetFromFields | ai_prompt_generator_pkg/simple_prompt_generator.py:327-336 | a record built field by field holds the given value in every field |
| Elements.Extensionality | ai_prompt_generator.py:20-30 | two records that agree on all eight fields are equal (dataclass equality) |
| Elements.StyleFromValue | ai_prompt_generator.py:32-43 | `StyleCategory(v)` finds a member only if its value is v, and finds it whenever some member has value v |
| Elements.LightingFromValue | ai_prompt_generator.py:45-52 | `LightingType(v)`, in exactly the same sense |
| Elements.MoodFromValue | ai_prompt_generator.py:54-63 | `MoodType(v)`, in exactly the same sense |
| Elements.CompositionFromValue | ai_prompt_generator.py:65-72 | `CompositionType(v)`, in exactly the same sense |
| Text.Contains | ai_prompt_generator.py:259 | defines Python's `sub in s`; `ContainsIff`, `ContainsTransitive` and `ContainsInfix` state its properties |
| Text.ContainsIff | ai_prompt_generator.py:259 | `sub in s` holds exactly when sub occurs in s at some position |
| Text.ContainsTransitive | ai_prompt_generator.py:259 | a substring of a substring of s is a substring of s |
| Text.ContainsInfix | ai_prompt_generator.py:259 | x occurs in pre + x + post |
| Text.Join | ai_prompt_generator.py:151 | defines `sep.join(parts)`; `JoinAppend`, `Join3`, `JoinAround`, `JoinContainsPart`, `JoinSplit` and `SplitJoin` state its properties |
| Text.JoinAppend | ai_prompt_generator.py:149-151 | joining two non-empty lists puts one separator between their joins |
| Text.Join3 | ai_prompt_generator.py:149-151 | joining three parts places the separator twice |
| Text.JoinAround | ai_prompt_generator.py:151 | every part of a join appears in it, with text before and after |
| Text.JoinContainsPart | ai_prompt_generator.py:151 | every part of a join is a substring of it |
| Text.Find | ai_prompt_generator.py:256 | the first occurrence of a character: none before it, and the character at it when found |
| Text.RFind | ai_prompt_generator.py:260 | the last occurrence of a character: none after it, and the character at it when found; -1 when absent |
| Text.RFindBefore | ai_prompt_generator.py:260 | the last c sits just before any c-free suffix that is either all of s or preceded by c |
| Text.AbsentChar | ai_prompt_generator.py:259-273 | a keyword holding a character the line lacks does not occur in the line |
| Text.Split | ai_prompt_generator.py:256 | `s.split(c)` yields at least one piece and no piece contains c |
| Text.JoinSplit | ai_prompt_generator.py:256 | joining the pieces of `s.split(c)` with c gives back s |
| Text.SplitJoin | ai_prompt_generator.py:256 | splitting a join of c-free pieces gives back the pieces |
| Text.SplitWithout | ai_prompt_generator.py:256 | a string without c splits into itself alone |
| Text.LastStartShape | ai_prompt_generator.py:260 | after the start of the last piece there is no c, and before it stands a c (or nothing) |
| Text.LastPiece | ai_prompt_generator.py:260 | `s.split(c)[-1]` is the suffix of s from the start of the last piece |
| Text.LastPieceAfterRFind | ai_prompt_generator.py:260 | `s.split(c)[-1]` is `s[s.rfind(c) + 1:]` |
| Text.StripLeft | ai_prompt_generator.py:258 | left-stripping keeps a suffix that starts with no whitespace, and everything removed is whitespace |
| Text.StripRight | ai_prompt_generator.py:258 | right-stripping keeps a prefix that ends with no whitespace, and everything removed is whitespace |
| Text.Strip | ai_prompt_generator.py:258 | `s.strip()` is no longer than s, and it starts and ends with non-whitespace |
| Text.StripShape | ai_prompt_generator.py:258 | `s.strip()` is an infix of s with only whitespace around it |
| Text.TrimmedBoth | ai_prompt_generator.py:258 | cutting leading then trailing whitespace leaves an infix with whitespace around it |
| Text.StripTrimmed | ai_prompt_generator.py:258 | a string with no whitespace at either end is its own strip |
| Text.StripIdempotent | ai_prompt_generator_pkg/simple_prompt_generator.py:327-336 | stripping twice is stripping once |
| Text.LowerChar | ai_prompt_generator.py:258 | lower-casing a character keeps whether it is whitespace and leaves no capital A-Z |
| Text.Lower | ai_prompt_generator.py:258 | `s.lower()` has the same length as s and is lower-cased character by character |
| Assembly.Prefix | ai_prompt_generator.py:117-146 | defines the labels: none for the subject, and "composition: ", "style: ", "lighting: ", "colors: ", "mood: ", "details: ", "for: " for the other seven fields; `PartOf` and `PartContainsValue` state the parts built from them |
| Assembly.PartOf | ai_prompt_generator.py:117-118 | the subject's part is the subject verbatim |
| Assembly.BasicPrompt | ai_prompt_generator.py:104-151 | the prompt `create_basic_prompt` returns; it has no contract of its own, and `EmittedIff`, `EmittedInOrder`, `PromptPartsShape`, `QualityTail` and `ValueOccurs` state what it is |
| Assembly.PromptParts | ai_prompt_generator.py:114-149 | defines the `prompt_parts` list before joining; `PromptPartsShape`, `EmittedIff` and `EmittedInOrder` state its shape |
| Assembly.NonEmpty | ai_prompt_generator.py:117-146 | a field is selected exactly when it is listed and non-empty; with all listed fields empty, none is |
| Assembly.NonEmptyIncreasing | ai_prompt_generator.py:117-146 | dropping the empty fields keeps declaration order |
| Assembly.Parts | ai_prompt_generator.py:117-146 | one part per selected field, position by position |
| Assembly.ContentPartsStep | ai_prompt_generator.py:117-146 | testing one more field adds its part exactly when it is non-empty |
| Assembly.PartsSnoc | ai_prompt_generator.py:117-146 | one more field adds its part at the end |
| Assembly.PartsUpToContent | ai_prompt_generator.py:114-146 | the sequence of eight `if` tests builds the parts of the non-empty fields in order |
| Assembly.PromptFromTests | ai_prompt_generator.py:148-151 | after the eight tests, appending the quality tokens and joining with ", " gives the prompt |
| Assembly.EmittedIff | ai_prompt_generator.py:117-146 | a field contributes a part exactly when it is non-empty |
| Assembly.EmittedInOrder | ai_prompt_generator.py:117-146 | the contributing fields appear once each, in the order subject, composition, style, lighting, color, mood, details, context |
| Assembly.PromptPartsShape | ai_prompt_generator.py:117-149 | the part list is one labelled part per contributing field, followed by exactly the three quality tokens |
| Assembly.EmptyPrompt | ai_prompt_generator.py:149-151 | with every field empty the prompt is "high quality, detailed, professional" |
| Assembly.QualityJoin | ai_prompt_generator.py:149-151 | the quality tokens joined are "high quality, detailed, professional" |
| Assembly.ContentPrompt | ai_prompt_generator.py:149-151 | with some field set, the prompt is the joined content parts, ", " and the quality text |
| Assembly.QualityTail | ai_prompt_generator.py:149-151 | every prompt ends with the quality text, and equals it exactly when every field is empty |
| Assembly.SubjectOnly | ai_prompt_generator.py:117-118 | a record with only a subject gives subject + ", high quality, detailed, professional" |
| Assembly.OnlySubject | ai_prompt_generator.py:117-146 | with only the subject set, the subject is the one contributing field |
| Assembly.PartContainsValue | ai_prompt_generator.py:117-146 | a field's part contains the field's value |
| Assembly.ValueOccurs | ai_prompt_generator.py:117-146 | every non-empty field value occurs in the prompt |
| Assembly.HatExample | test.py:26-31 | details containing "hat" put "hat" into the prompt; the helper `HatInDetails` shows that the test's details "wearing a hat" contain "hat" |
| PromptGenerator.CreateBasicPrompt | ai_prompt_generator.py:104-151 | the list built step by step and joined is the specified prompt |
| CliPromptGenerator.CreateBasicPrompt | ai_prompt_generator_pkg/cli_prompt_generator.py:87-126 | the command line's copy returns the same prompt as the main program's for every record |
| SimplePromptGenerator.Gui.CreateBasicPrompt | ai_prompt_generator_pkg/simple_prompt_generator.py:349-388 | the window's copy returns the same prompt as the main program's for every record |
| LineParser.ClassifyFirstMatch | ai_prompt_generator.py:259-274 | a line is classified as field f exactly when it mentions f's English or Hebrew keyword and no earlier field's; it is unclassified exactly when it mentions no keyword |
| LineParser.Keywords | ai_prompt_generator.py:259-273 | defines the sixteen keywords, one English and one Hebrew per field; `ClassifyFirstMatch` states how the chain uses them |
| LineParser.Mentions | ai_prompt_generator.py:259-273 | defines the test `'<english>' in line or '<hebrew>' in line`; `ClassifyFirstMatch` states the classification in its terms |
| LineParser.Normalize | ai_prompt_generator.py:258 | defines `line.strip().lower()`; `Text.Strip`, `Text.StripShape` and `Text.Lower` state what it does to the line |
| LineParser.Classify | ai_prompt_generator.py:259-274 | the field the `if`/`elif` chain picks for a normalised line; `ClassifyFirstMatch` states it is the first field the line mentions, or none |
| LineParser.ValueOf | ai_prompt_generator.py:260 | `line.split(':')[-1].strip()`; `ValueAfterLastColon` states it is the stripped text after the last ':' |
| LineParser.ParseLine | ai_prompt_generator.py:258-274 | the record after one line; `ParseLineEffect` and `LineSets` state that it sets at most the classified field, to the line's value |
| LineParser.ParseLines | ai_prompt_generator.py:257-274 | defines the fold of the `for` loop over the lines, starting from `PromptElements()`; `Untouched` and `LastWriteWins` state which value each field ends with |
| LineParser.ParseText | ai_prompt_generator.py:251-276 | the record `_parse_elements_from_text` returns; `Untouched` and `LastWriteWins` state which value each field holds, and `PromptGenerator.ParseElementsFromText` is the loop proved equal to it |
| LineParser.ParseLineEffect | ai_prompt_generator.py:258-274 | one line changes at most the field it is classified as, setting it to the line's value; an unclassified line changes nothing |
| LineParser.Untouched | ai_prompt_generator.py:253-274 | a field that no line sets stays "" |
| LineParser.LastWriteWins | ai_prompt_generator.py:257-274 | a field holds the value of the last line that sets it |
| LineParser.ValueAfterLastColon | ai_prompt_generator.py:260 | a line's value is the stripped text after its last ':', or the whole stripped line without a ':' |
| LineParser.ValueAfterColon | ai_prompt_generator.py:260 | in "pre:rest" where rest has no ':', the value is rest stripped |
| LineParser.SingleLine | ai_prompt_generator.py:256-257 | a text without a line break is parsed as its one line |
| LineParser.LineSets | ai_prompt_generator.py:259-274 | a line classified as f with value v sets f to v |
| LineParser.StyleLineExample | ai_prompt_generator.py:251-276 | the text "Style: watercolor" gives the record whose style is "watercolor" and whose other fields are ""; the steps are proved by the helpers `StyleLineNormalized`, `NoSubject`, `NoComposition`, `StyleLineClassified`, `StripLeading` and `StyleLineValue` |
| LineParser.StyleLineParsed | ai_prompt_generator.py:258-264 | the line "Style: watercolor" sets only the style, to "watercolor" |
| PromptGenerator.ParseElementsFromText | ai_prompt_generator.py:251-276 | the loop over the lines returns exactly the record of the fold `ParseText` |
| PromptGenerator.JsonSpan | ai_prompt_generator.py:237-238 | there is a match exactly when some '}' follows some '{', and the match runs from the first '{' to the last '}' |
| PromptGenerator.JsonCandidate | ai_prompt_generator.py:237-242 | the record of the JSON branch, or none when control falls through; `JsonCandidateCases` and `NoBraceFallsBack` state when it exists and what it holds |
| PromptGenerator.WholeObjectSpan | ai_prompt_generator.py:237 | a reply that starts with '{' and ends with '}' is its own match |
| PromptGenerator.JsonCandidateCases | ai_prompt_generator.py:237-242 | the JSON branch returns exactly when there is a span, `json.loads` accepts it and every key names a field; the record then takes each field from its key, "" when missing |
| PromptGenerator.NoBraceFallsBack | ai_prompt_generator.py:237-245 | a reply without '{' never takes the JSON branch |
| PromptGenerator.ReverseEngineerPrompt | ai_prompt_generator.py:221-249 | a failed chat call gives the empty record; otherwise the stripped reply's JSON record when the branch succeeds, else the line parser's record for the same stripped text |
| PromptGenerator.EnhancePrompt | ai_prompt_generator.py:178-194 | the enhanced prompt is the stripped reply, or the basic prompt unchanged when the call raises |
| PromptGenerator.ColorsText | ai_prompt_generator.py:316 | the colour text is "" exactly when no colours or an empty list are given, and otherwise starts with "brand colors: " |
| PromptGenerator.ColorsListed | ai_prompt_generator.py:316 | every given colour appears in the colour text |
| PromptGenerator.TemplatesShape | ai_prompt_generator.py:318-323 | there are four templates, keyed once each by exactly logo, instagram_post, hero_image and avatar, and each names the business type and holds the colour text |
| PromptGenerator.CampaignTemplates | ai_prompt_generator.py:318-323 | the four keyed templates; `TemplatesShape` states their keys and contents, and `CreateCampaignPrompts` is the loop over them |
| PromptGenerator.TemplateMentions | ai_prompt_generator.py:319-322 | a template built around the business type and the colour text contains both |
| PromptGenerator.CreateCampaignPrompts | ai_prompt_generator.py:305-330 | the result has exactly the four campaign keys, and each maps to its template enhanced for "marketing for <business type>" |
| Templates.ToEntries | ai_prompt_generator.py:335 | the saved pairs are the eight field names with their values, in declaration order |
| Templates.EntriesToMapMembers | ai_prompt_generator.py:340-342 | every saved key is in the decoded object, and every decoded entry is one of the saved pairs |
| Templates.EntriesToMap | ai_prompt_generator.py:332-342 | the dictionary a dumped template reads back as; `EntriesToMapMembers`, `EntriesSnoc` and `SavedEntriesReadBack` state its keys and values |
| Templates.EntriesSnoc | ai_prompt_generator.py:340-342 | one more member of the object updates the dictionary of the members before it |
| Templates.ToMap | ai_prompt_generator.py:335 | `elements.__dict__` has exactly the eight field names as keys, each mapped to its field's value |
| Templates.FromMap | ai_prompt_generator.py:342 | `PromptElements(**data)` fails exactly when some key names no field; otherwise each field takes its key's value, "" when missing |
| Templates.SavedEntriesReadBack | ai_prompt_generator.py:332-342 | reading back what was saved gives the record's dictionary |
| Templates.RoundTrip | ai_prompt_generator.py:332-342 | loading the dictionary of a record gives the same record |
| Templates.LoadThenSave | ai_prompt_generator.py:332-342 | loading then saving keeps every key that was present and supplies "" for every missing field name |
| PromptGenerator.LoadElementsTemplate | ai_prompt_generator.py:337-345 | a failed read or an unknown key gives the empty record; otherwise each field takes its key's value, "" when missing |
| PromptGenerator.SaveThenLoad | ai_prompt_generator.py:332-345 | a saved template loads back as the record it was saved from |
| PromptGenerator.MainElements | ai_prompt_generator.py:369-382 | `main` works on the loaded template when `--load-template` is given, and otherwise on the record from the flags |
| Flags.FromFlags | ai_prompt_generator_pkg/cli_prompt_generator.py:217-226 | every absent string flag gives "", a present one its value, and `--colors` fills the color field |
| Flags.VocabularyFlags | ai_prompt_generator_pkg/cli_prompt_generator.py:169-226 | a vocabulary flag is absent exactly when its field is "", and a present one leaves the value that names it |
| Examples.Example | ai_prompt_generator_pkg/cli_prompt_generator.py:248-281 | there is an example for exactly the names cat, logo and landscape |
| Examples.ExamplesFilled | ai_prompt_generator_pkg/cli_prompt_generator.py:250-281 | every example fills all eight fields, and its composition, style and mood are vocabulary values; its lighting is a vocabulary value for every example except the logo's "clean lighting" |
| CliPromptGenerator.LoadExample | ai_prompt_generator_pkg/cli_prompt_generator.py:248-284 | a known name gives its example, and any other name the empty record |
| CliPromptGenerator.LoadTemplate | ai_prompt_generator_pkg/cli_prompt_generator.py:134-138 | loading fails exactly when reading fails or some key names no field; otherwise each field takes its key's value, "" when missing |
| CliPromptGenerator.SaveThenLoad | ai_prompt_generator_pkg/cli_prompt_generator.py:128-138 | a saved template loads back as the same record |
| CliPromptGenerator.Run | ai_prompt_generator_pkg/cli_prompt_generator.py:195-245 | `--examples` only shows examples; a failed template load stops; with no template and an empty subject `main` stops without a prompt; otherwise the prompt of the chosen record is printed, and saved exactly when `--save-template` is given |
| CliPromptGenerator.ChosenElements | ai_prompt_generator_pkg/cli_prompt_generator.py:204-226 | the record `main` works on: the example, else the template, else the flags; `Run` and `ExamplesAndFlagsPrompt` state what `main` does with it |
| CliPromptGenerator.ExamplesAndFlagsPrompt | ai_prompt_generator_pkg/cli_prompt_generator.py:204-231 | without a template, every example passes the subject guard, and a run from flags passes it exactly when `--subject` is a non-empty string |
| SimplePromptGenerator.TrimmedFields | ai_prompt_generator_pkg/simple_prompt_generator.py:327-336 | every field of `get_elements` is the input stripped, with no whitespace at either end |
| SimplePromptGenerator.TrimmedIdempotent | ai_prompt_generator_pkg/simple_prompt_generator.py:327-336 | stripping an already stripped record changes nothing |
| SimplePromptGenerator.Trimmed | ai_prompt_generator_pkg/simple_prompt_generator.py:325-336 | the form with every field stripped; `TrimmedFields` and `TrimmedIdempotent` state its fields |
| SimplePromptGenerator.Gui.GetElements | ai_prompt_generator_pkg/simple_prompt_generator.py:325-336 | `get_elements`: the window's form, trimmed; `TrimmedFields` states that each field is the stripped input |
| SimplePromptGenerator.Gui.constructor | ai_prompt_generator_pkg/simple_prompt_generator.py:315 | a new window has empty inputs, an empty prompt box and the status "מוכן לשימוש" |
| SimplePromptGenerator.Gui.SetElements | ai_prompt_generator_pkg/simple_prompt_generator.py:338-347 | the eight inputs take the record's values verbatim; the prompt box and the status are unchanged |
| SimplePromptGenerator.Gui.GeneratePrompt | ai_prompt_generator_pkg/simple_prompt_generator.py:390-403 | with an empty stripped subject nothing changes; otherwise the prompt box holds the prompt of the stripped form and the status reports success; the inputs never change |
| SimplePromptGenerator.Gui.SaveTemplate | ai_prompt_generator_pkg/simple_prompt_generator.py:416-431 | nothing is written when the dialog is cancelled, and otherwise the stripped form's eight pairs, in declaration order |
| SimplePromptGenerator.Gui.LoadTemplate | ai_prompt_generator_pkg/simple_prompt_generator.py:433-448 | the inputs take the loaded record only when a file was chosen, it decodes and every key names a field; on any failure nothing changes |
| SimplePromptGenerator.Gui.ClearAll | ai_prompt_generator_pkg/simple_prompt_generator.py:450-455 | every input and the prompt box are emptied and the status is "השדות נוקו" |
| SimplePromptGenerator.Gui.LoadExample | ai_prompt_generator_pkg/simple_prompt_generator.py:457-494 | a known name fills the inputs with its example and reports it in the status bar; any other name changes nothing |
| SimplePromptGenerator.SaveThenLoadKeepsForm | ai_prompt_generator_pkg/simple_prompt_generator.py:416-448 | loading what `save_template` wrote succeeds and gives the stripped form back |

## Left out

- I/O. The chat and image client, file reading and writing, `json.dump`
  formatting and `json.loads` are not modelled. Their results are
  parameters, because they are foreign calls whose text is not visible.
- `generate_image` (ai_prompt_generator.py:278-303). It is a thin call into
  the image client.
- The request parameters `max_tokens` and `temperature` of the chat calls
  (ai_prompt_generator.py:185-186, 228-229). `max_tokens` is an integer
  constant and `temperature` a float constant. Both are passed to the chat
  client, which is not modelled.
- The client constructor's check for an API key
  (ai_prompt_generator.py:84-88). It looks the key up in the environment.
- `PromptGenerator.MainElements` covers only the record choice in the main
  program's `main`. The enhance, generate, save and print steps after it
  are calls into the client and the console.
- Printing and message boxes. `print_examples` and the Tk `messagebox` and
  `filedialog` calls are left out because they are console and widget output.
  `CliPromptGenerator.Run` reports what would be printed or written as an
  `Outcome`. The window modelled here reports it in its status and prompt fields.
- `copy_to_clipboard` in the window. It is clipboard glue.
- The Tk layout and the combobox value lists of the window.
- `SimplePromptGenerator.Gui.SaveTemplate`, `CliPromptGenerator.Run`: a write
  that raises is not modelled. The pairs written are the pairs they would
  write; a failed save only prints or shows an error.
- `Text.Strip`: trims only the whitespace characters below U+0080 that
  Python's `str.isspace` accepts. The Unicode spaces above U+0080 are not
  trimmed, because full Unicode tables are out of scope.
- `Text.Lower`: lower-cases only A-Z. Python also lower-cases non-ASCII
  letters. The keywords and the Hebrew text used here are unaffected.
- `PromptGenerator.CreateCampaignPrompts`: the result is a map, so the
  insertion order of the Python dict is not modelled.
- `PromptGenerator.ReverseEngineerPrompt`, `PromptGenerator.JsonCandidate`:
  decoded values are strings only. In Python, a reply object whose values
  are not strings still takes the JSON branch and yields a record holding
  those values. For example, `{"subject": "cat", "details": ["soft fur"]}`
  gives a record whose details field is a list. The model cannot hold such
  a record, so such a reply is outside the model. The same holds for a
  template file whose values are not strings: here the decoded object is a
  map from strings to strings.
- `style_keywords` and `quality_enhancers` (ai_prompt_generator.py:91-102).
  They are never read.
- gui_prompt_generator.py is not part of this model. It is widget,
  thread and download glue over the same kernel.
- test.py builds one record and checks that its prompt is non-empty and
  contains "hat" (test.py:26-31). `Assembly.HatExample` states that check
  for every record whose details contain "hat". test.py's printing of the
  prompt is not modelled.
- setup.py holds packaging metadata only.
