# Comment generator — a verified model

The comment generator is a one-page React application (`src/App.jsx`). It
helps a teacher write the "behavioural characteristics and overall opinion"
comment for each student of a class. The teacher works through three steps:

1. Step 1: enter one or more sample comments in their own style.
2. Step 2: load the students' self-assessment sheet (CSV or Excel).
3. Step 3: for each student, tick the questionnaire answers (`Q…` columns)
   and the observed traits to use, then ask a language model for a comment.

Each generated comment goes in front of that student's history. One comment
per student can be chosen as final, and the final choices are exported as
a CSV file. A settings dialog stores the provider, the API key, the endpoint
and the model.

The model is in Dafny:

- `wrappers.dfy`: `Option` and `Result`.
- `text.dfy`: the string operations the component relies on:
  - ECMAScript `trim`;
  - `Array.prototype.join`;
  - decimal rendering of a length;
  - an "occurs in" relation.
- `style_samples.dfy`: the sample editor (add, remove, update, the step-1
  guard) and its invariant (ids are distinct and below `nextId`, and the
  list is never empty).
- `selection.dfy`: a student record as its ordered `[key, value]` entries;
  the questionnaire-item flags and the filter that selects the answers for
  the prompt; the trait toggle.
- `ledger.dfy`: the student key (number, else name, else a fallback); the
  generation history (newest first); the final-selection map.
- `csv.dfy`: the export text. The export is read back by `Csv.ParseRecord`,
  an RFC 4180 (section 2) record reader, to state what a data line reads
  back as.
- `prompt.dfy`: the variable parts of the prompt (student text, traits
  text, style block, the "no samples" note) and where they land in it.
- `llm.dfy`: provider presets and fallbacks; the three checks and the
  choice of wire format in `generateWithLLM`; the validation in
  `saveSettings`; the settings form.
- `app.dfy`: the component as a class `CommentGenerator`. It has one field
  per `useState` hook that the model keeps, and one method per event
  handler. Each method states its whole new state through `Snapshot()`: the
  fields it changes get new values and every other field keeps its old
  one. Every method preserves `Valid()`. `ExportCsv` builds the export text
  in a loop and is proved equal to `Csv.ExportText`.

## Model

| member | source | states |
|---|---|---|
| Text.TrimBy | src/App.jsx:322-324 | the result is a slice of the input with only space cut from either end; it neither starts nor ends with space; it is empty iff the input is all space |
| Text.TrimIdempotent | src/App.jsx:322-324 | trimming a trimmed string changes nothing |
| Text.Join | src/App.jsx:1011 | joining no parts gives the empty string, and joining one part gives that part |
| Text.JoinEmbeds | src/App.jsx:1011 | every part occurs in the joined text |
| Text.NatToString | src/App.jsx:148 | the decimal rendering is non-empty, all digits, and has no leading zero |
| Text.ParseNatToString | src/App.jsx:148 | reading the rendered count back gives the count |
| StyleSamples.InitialValid | src/App.jsx:9-13 | the two initial samples with `nextId` 3 satisfy the invariant |
| StyleSamples.Add | src/App.jsx:94-97 | the old list is kept as a prefix, followed by one empty, optional sample with id `nextId` |
| StyleSamples.AddValid | src/App.jsx:94-97 | adding keeps ids distinct and below the incremented `nextId` |
| StyleSamples.WithoutId | src/App.jsx:102 | a sample is kept iff it was there and has another id |
| StyleSamples.WithoutIdAppend | src/App.jsx:102 | the filter of a concatenation is the concatenation of the filters, so the kept samples stay in their order |
| StyleSamples.Remove | src/App.jsx:100-104 | a list of at most one sample is unchanged; otherwise exactly the samples with another id remain, in their order (`StyleSamples.WithoutIdAppend`) |
| StyleSamples.RemoveValid | src/App.jsx:100-104 | removing keeps the invariant, so the list never becomes empty |
| StyleSamples.RemoveNeedsDistinctIds | src/App.jsx:100-104 | without distinct ids, removal could empty a list of two |
| StyleSamples.Update | src/App.jsx:107-111 | the same length; exactly the samples with the id get the new text, and their other fields stay |
| StyleSamples.UpdateValid | src/App.jsx:107-111 | updating keeps the invariant |
| StyleSamples.UpdateUndo | src/App.jsx:107-111 | writing back the old text of a sample restores the list |
| StyleSamples.UpdateFirstOpensStep1 | src/App.jsx:521-523 | after an edit of the first sample, the step-1 button is enabled iff the new text is non-empty |
| Selection.FieldValue | src/App.jsx:142 | a present field reads as the value of its first entry; a missing field reads as `""`; a non-empty value is one of the record's entries |
| Selection.SelectedEntries | src/App.jsx:81-84 | `qEntries` filtered by the ticked flags (the filter is at src/App.jsx:1004): an entry is selected iff it belongs to the record, its key starts with `Q` and its flag is `true` |
| Selection.SelectedEntriesAppend | src/App.jsx:1004 | the selection of a concatenated record is the selection of each part, so the selected answers keep the record's order |
| Selection.NothingSelectedByDefault | src/App.jsx:28 | with no flag set, no answer is selected, so a generation is refused |
| Selection.ToggleQ | src/App.jsx:856-860 | the item's flag flips, and the other flags keep their values |
| Selection.ToggleQTwice | src/App.jsx:856-860 | two clicks on an item restore every item's selection |
| Selection.ToggleQEffect | src/App.jsx:856-860 | a click changes the membership of that item's answer in the selection and of no other answer |
| Selection.WithoutTrait | src/App.jsx:117 | a trait is kept iff it was there and differs from the removed one |
| Selection.WithoutTraitAppend | src/App.jsx:117 | the filter of a concatenation is the concatenation of the filters, so the kept traits stay in their order |
| Selection.ToggleTrait | src/App.jsx:114-120 | the trait's membership flips; the other traits keep theirs; a new trait goes at the end, and a removal keeps the order of the rest (`Selection.WithoutTraitAppend`) |
| Selection.ToggleTraitNoDuplicates | src/App.jsx:114-120 | toggling never makes a trait appear twice |
| Selection.ToggleTraitTwice | src/App.jsx:114-120 | selecting a trait and deselecting it restores the list |
| Ledger.StudentKey | src/App.jsx:142 | the key is the student number if non-empty, else the name if non-empty, else the fallback |
| Ledger.SameNumberSameKey | src/App.jsx:1118 | two records with the same non-empty number share one key, whatever their names |
| Ledger.Prepend | src/App.jsx:1119-1125 | the new entry is at the front of that student's history, which is created when missing; other histories are unchanged |
| Ledger.PrependNewestFirst | src/App.jsx:1119-1125 | after two generations the newest is first, the previous one second, and the older ones follow in order |
| Ledger.PrependCommutes | src/App.jsx:1119-1125 | generations for different students do not affect each other's histories |
| Ledger.SelectFinal | src/App.jsx:123-128 | the key maps to the chosen text; other keys keep their values |
| Ledger.SelectFinalOverwrites | src/App.jsx:123-128 | a later final choice for the same student replaces the earlier one |
| Csv.DoubleQuotes | src/App.jsx:151 | escaping never shortens the text |
| Csv.DoubleQuotesLength | src/App.jsx:151 | escaping adds exactly one character per `"` of the comment |
| Csv.DoubleQuotesNoQuote | src/App.jsx:151 | a comment without `"` is written unchanged between the quotes |
| Csv.ExportText | src/App.jsx:131-158 | no text without final selections; otherwise the BOM, the header and the rows of the students in list order |
| Csv.RowsAppend | src/App.jsx:140-156 | the rows of a concatenated student list are the rows of each part in order |
| Csv.RowsSplitAt | src/App.jsx:140-156 | the rows of the list are the rows before a student, that student's row and the rows after it |
| Csv.RowsUpToPrefix | src/App.jsx:140-156 | after `i` iterations the loop has appended exactly the rows of the first `i` students |
| Csv.ExportOfAllRows | src/App.jsx:131-158 | once every student has been visited, the BOM, the header and the appended rows make up the export text |
| Csv.RowsOfUnselected | src/App.jsx:143-145 | students without a non-empty final selection contribute nothing |
| Csv.LineIsTemplate | src/App.jsx:153 | a line is the number, the name, the quoted comment and the count, separated by commas |
| Csv.RowIsTemplate | src/App.jsx:141-155 | a student contributes that line with `\n` iff their key has a non-empty final selection, else nothing |
| Csv.ParseQuotedRoundTrip | src/App.jsx:151 | reading the quoted field gives back the original comment, whatever quotes, commas or line breaks it holds |
| Csv.JoinCellsRoundTrip | src/App.jsx:153 | a record of quoted cells and comma-free raw cells reads back as its fields |
| Csv.LineRoundTrip | src/App.jsx:145-153 | with a number and a name free of commas, quotes and line breaks, a line reads back as number, name, comment and count, and the count reads back as the comment's length |
| Csv.NameWithCommaSplits | src/App.jsx:146-153 | because the name is written raw, a name holding a comma reads back as two fields, giving five fields instead of four |
| Csv.ExportHasSelectedLine | src/App.jsx:131-158 | every student with a non-empty final selection has their line in the exported text |
| Prompt.EntryLines | src/App.jsx:1011 | one `k: v` line per selected answer, in order |
| Prompt.StudentTextHasEntry | src/App.jsx:1011 | every selected answer occurs in the student text |
| Prompt.TraitsText | src/App.jsx:1012-1014 | the traits text is empty iff no trait is selected |
| Prompt.TraitsTextHasTrait | src/App.jsx:1012-1014 | every selected trait occurs in the traits text |
| Prompt.SampleParts | src/App.jsx:1083 | there are no more parts than samples, and no parts iff every sample is empty |
| Prompt.SamplePartsHas | src/App.jsx:1083 | a sample with text yields its part, labelled with its position in the whole list |
| Prompt.StyleBlock | src/App.jsx:1083 | the style block is empty when every sample is empty |
| Prompt.StyleBlockHasSample | src/App.jsx:1083 | every filled-in sample occurs, labelled, in the style block |
| Prompt.SamplesNote | src/App.jsx:1084 | the "no samples" note appears iff every sample is empty; otherwise nothing is added |
| Prompt.BuildHasEntry | src/App.jsx:1016-1107 | every selected answer reaches the prompt |
| Prompt.BuildHasTrait | src/App.jsx:1016-1107 | every selected trait reaches the prompt |
| Prompt.BuildHasSample | src/App.jsx:1016-1107 | every filled-in sample reaches the prompt with its label |
| Prompt.ForStudentHasTicked | src/App.jsx:1004-1107 | an answer of the record whose item is ticked reaches the prompt |
| Llm.CurrentEndpoint | src/App.jsx:78 | the stored endpoint, or the provider's preset when none is stored |
| Llm.CurrentModel | src/App.jsx:79 | the stored model, or the provider's preset when none is stored |
| Llm.Restore | src/App.jsx:62-75 | the stored provider, or `openai` when none is stored; the stored key; the stored endpoint and model, or the provider's presets when none is stored |
| Llm.FirstRunNeedsOnlyAKey | src/App.jsx:62-75 | with nothing stored, the form opens on the OpenAI endpoint and model, and a non-blank key is enough for the save to succeed |
| Llm.DefaultEndpointIsNotBlank | src/App.jsx:45 | the OpenAI preset endpoint is not blank after trimming |
| Llm.DefaultModelIsNotBlank | src/App.jsx:46 | the OpenAI preset model is not blank after trimming |
| Llm.PresetsFillEndpointAndModel | src/App.jsx:43-60 | for openai, claude and gemini the effective endpoint and model are never empty |
| Llm.ApiOf | src/App.jsx:181-192 | the Claude format iff the provider is `claude`; the Gemini format iff it is `gemini`; otherwise the OpenAI format |
| Llm.PrepareCall | src/App.jsx:176-193 | checks the key, then the endpoint, then the model, and the first one missing is the error; a call goes out iff all three are present; Gemini uses its native URL, which carries the model and the key |
| Llm.GenerateWithLLM | src/App.jsx:176-193 | a failed check is the result and nothing is sent; otherwise the result is the provider's answer to the prepared request |
| Llm.NoKeyNoCall | src/App.jsx:177 | without a key the result is the missing-key error, whatever the provider would answer |
| Llm.ValidateInputs | src/App.jsx:321-336 | the trimmed key, endpoint and model are checked in that order; the first one empty is the error; otherwise the trimmed values are stored |
| Llm.SavedSettingsCanCall | src/App.jsx:321-349 | settings that were saved pass all three checks of a later call, for any provider |
| Llm.SaveIdempotent | src/App.jsx:321-349 | saving the saved values again stores the same values |
| Llm.OpenForm | src/App.jsx:285-289 | the form shows the stored key and the effective endpoint and model |
| Llm.ChangeProvider | src/App.jsx:314-319 | the endpoint and model inputs take the new provider's presets; the key input is kept |
| Llm.ReopenAndSave | src/App.jsx:285-349 | opening the form and saving it unchanged stores a working configuration with its effective values |
| App.ExportLine | src/App.jsx:141-155 | the `forEach` body produces exactly the student's row: the template line if the final opinion is truthy, else nothing |
| App.CommentGenerator.constructor | src/App.jsx:5-75 | the initial state; the settings are those read back from storage (`Llm.Restore`): a missing provider is `openai`, a missing endpoint or model is the provider's preset; the form inputs show the same key, endpoint and model |
| App.CommentGenerator.AddStyleSample | src/App.jsx:94-97 | only the samples and `nextId` change; the invariant holds |
| App.CommentGenerator.RemoveStyleSample | src/App.jsx:100-104 | only the samples change; the list stays non-empty |
| App.CommentGenerator.UpdateStyleSample | src/App.jsx:107-111 | only the samples change |
| App.CommentGenerator.LeaveStep1 | src/App.jsx:521-523 | moves to step 2 iff the first sample has text; otherwise nothing changes |
| App.CommentGenerator.LoadStudents | src/App.jsx:620-652 | an empty sheet empties the list and sets that file type's "no data" message; otherwise its rows replace the list and the error clears |
| App.CommentGenerator.LoadFailed | src/App.jsx:632-656 | an unreadable file sets that file type's read error and keeps the list |
| App.CommentGenerator.ChooseAnotherFile | src/App.jsx:562-567 | the list and the error are emptied |
| App.CommentGenerator.LeaveStep2 | src/App.jsx:713-721 | without students only the "not loaded yet" error is set; otherwise the wizard moves to step 3 |
| App.CommentGenerator.GoBack | src/App.jsx:710 | the "previous" buttons of step 2 (line 710) and step 3 (line 798): moves one step back; nothing else changes |
| App.CommentGenerator.SelectStudent | src/App.jsx:751 | the clicked student becomes the one on view |
| App.CommentGenerator.ToggleTrait | src/App.jsx:918 | only the traits change, and they stay duplicate-free |
| App.CommentGenerator.ToggleQItem | src/App.jsx:856-860 | only the item flags change |
| App.CommentGenerator.BackToList | src/App.jsx:984-990 | the student on view, the shown text, the error, the traits and the item flags reset; the history and the final selections stay |
| App.CommentGenerator.Generate | src/App.jsx:1001-1130 | no key: nothing happens. No ticked item: only the error is set. Otherwise, on success the answer is shown and put in front of the student's history; on failure the shown text is empty and the message, or a generic one, is shown |
| App.CommentGenerator.EditGeneratedText | src/App.jsx:1208 | only the shown text changes |
| App.CommentGenerator.SelectFinalOpinion | src/App.jsx:1196-1198 | the text becomes the final selection under the key of the student on view |
| App.CommentGenerator.OpenSettings | src/App.jsx:285-289 | the form shows the effective settings and opens |
| App.CommentGenerator.CloseSettings | src/App.jsx:1346 | closing the settings window without saving (the backdrop at line 1346, the `✕` at 1359 and the close button at 1479) only closes it; the settings and the typed inputs stay |
| App.CommentGenerator.EditInputs | src/App.jsx:1398-1435 | only the form inputs change |
| App.CommentGenerator.ChangeProvider | src/App.jsx:314-319 | the provider changes, and the endpoint and model inputs take its presets |
| App.CommentGenerator.SaveSettings | src/App.jsx:321-349 | an invalid form only sets the error; a valid one stores the trimmed values, closes the form and clears the error |
| App.CommentGenerator.ClearSettings | src/App.jsx:351-365 | key, endpoint and model and their inputs are emptied (the provider stays); the form closes; the error and the shown text clear |
| App.CommentGenerator.ExportCsv | src/App.jsx:131-158 | the loop produces exactly `Csv.ExportText` of the students and the final selections |

## Left out

- The HTTP requests and the extraction of the answer from each provider's
  response are not modelled. The provider is the parameter `respond`: given
  the prepared request (format, URL, key, model, prompt), it returns the
  text or an error message.
- Storage of the settings in `localStorage` is not modelled. The
  constructor takes the stored values as a parameter, and saving or
  clearing changes only the component's state.
- Parsing CSV and Excel files (Papa Parse, SheetJS) is not modelled.
  `LoadStudents` receives the rows already read, and `LoadFailed` stands for
  a file that could not be read. The file name shown after loading
  (`uploadedFileName`) is not kept.
- The "choose another file" confirmation dialog is not modelled.
  `ChooseAnotherFile` is the confirmed path; when the teacher declines,
  nothing changes.
- Alerts, the custom alert box, the clipboard fallback, the show-key toggle,
  and the creation and click of the download link are not modelled.
  `ExportCsv` returns the text that would be downloaded. The date in the
  file name is not modelled.
- Clock readings are parameters: the history timestamp (`timestamp`) and
  the key used for a record with neither number nor name (`clockKey`).
- The fixed prose of the prompt (instructions, persona, format and length
  rules) is represented by the short constants `Prompt.Head`,
  `Prompt.Middle` and `Prompt.Tail`. The variable parts and their order are
  modelled exactly.
- `isGenerating` is not modelled: a generation is one atomic step, so the
  button cannot be pressed again while a request is in flight.
- The generate button is disabled without a key. `Generate` models a press
  on it as changing nothing.
- Text lengths: JavaScript `length` counts UTF-16 code units, and the model
  counts characters (`|s|`). The two differ only for characters outside the
  Basic Multilingual Plane.
- The list of offered traits and the list's rendering (selection marks,
  final-choice badges, counts) are display only and are not modelled.
- `App.CommentGenerator.SaveSettings`: the save button is disabled unless
  the trimmed key, endpoint and model inputs are all non-empty
  (src/App.jsx:1471). So the `EnterKey`, `EnterEndpoint` and `EnterModel`
  branches cannot be reached from the page. The model keeps them as
  `saveSettings` (src/App.jsx:321-336) writes them.
- `App.CommentGenerator.RemoveStyleSample`: the delete button is shown only
  for a sample that is not required, and only while there is more than one
  sample (src/App.jsx:475). The model does not encode the first of these
  display conditions, so it admits removing the required first sample. The
  handler itself (src/App.jsx:100-104) has no such check.
- The step-1 button is enabled by `styleSamples[0].text` as written, without
  trimming, so a first sample of only spaces opens step 2. The model follows
  the code.
- The export looks up each student's final selection under the student
  number (else the name), the same key the selection buttons use. It does
  not use a separate student id.
- A missing criterion flag counts as not selected, as in the code: only an
  item whose flag is `true` is used.
