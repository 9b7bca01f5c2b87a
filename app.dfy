/**
 * The component's state and its event handlers (App.jsx:5-40, 94-158,
 * 284-365, 521-523, 703-751, 984-1125, 1198, 1206-1208, 1295, 1346-1479).
 * Each `useState` hook is a field; each handler is a method that assigns the fields its
 * setters assign, with the new values computed by the pure functions of the
 * other modules. `Snapshot` gathers the fields into one value so that every
 * method can say which fields it changes and that the others keep their
 * values.
 */
module App {
  import opened Wrappers
  import opened Text
  import StyleSamples
  import opened Selection
  import opened Ledger
  import opened Csv
  import Prompt
  import opened Llm

  /** All fields of the component at one moment. */
  datatype State = State(
    step: nat,
    styleSamples: seq<StyleSamples.Sample>,
    nextId: int,
    students: seq<Student>,
    csvError: string,
    selectedStudent: Option<Student>,
    generatedText: string,
    apiError: string,
    generationHistory: History,
    selectedTraits: seq<string>,
    finalSelections: map<string, string>,
    selectedQItems: map<string, bool>,
    isSettingsOpen: bool,
    settings: Settings,
    inputs: Inputs)

  const NoItemsSelected: string := "⚠️ 최소 1개 이상의 항목을 선택해주세요."
  const UnknownError: string := "오류가 발생했습니다."
  const NoStudentsYet: string := "학생 데이터가 아직 불러와지지 않았습니다."

  /** The "no data" message of an Excel sheet and of a CSV file. */
  function NoRows(excel: bool): string {
    if excel then "Excel 파일에 데이터가 없습니다." else "CSV 파일에 데이터가 없습니다."
  }

  /** The message when an Excel sheet or a CSV file cannot be read. */
  function ReadError(excel: bool): string {
    if excel then "Excel 파일을 읽는 중 오류가 발생했습니다." else "CSV 파일을 읽는 중 오류가 발생했습니다."
  }

  /** The body of the export's `forEach`: the line of one student, or
      nothing when the student has no truthy final opinion. */
  method ExportLine(student: Student, finalSelections: map<string, string>) returns (line: string)
    ensures line == Row(student, finalSelections)
  {
    var studentId := StudentKey(student, "");
    line := "";
    if studentId in finalSelections && finalSelections[studentId] != "" {
      var finalOpinion := finalSelections[studentId];
      var name := FieldValue(student, NameField);
      var studentNum := FieldValue(student, NumberField);
      var escapedOpinion := QuoteField(finalOpinion);
      line := studentNum + "," + name + "," + escapedOpinion + "," + NatToString(|finalOpinion|) + "\n";
    }
    RowIsTemplate(student, finalSelections);
  }

  class CommentGenerator {
    var step: nat
    var styleSamples: seq<StyleSamples.Sample>
    var nextId: int
    var students: seq<Student>
    var csvError: string
    var selectedStudent: Option<Student>
    var generatedText: string
    var apiError: string
    var generationHistory: History
    var selectedTraits: seq<string>
    var finalSelections: map<string, string>
    var selectedQItems: map<string, bool>
    var isSettingsOpen: bool
    var settings: Settings
    var inputs: Inputs

    function Snapshot(): State
      reads this
    {
      State(step, styleSamples, nextId, students, csvError, selectedStudent, generatedText, apiError,
        generationHistory, selectedTraits, finalSelections, selectedQItems, isSettingsOpen, settings, inputs)
    }

    /** The sample list is never empty and its ids are distinct and below
        `nextId`; no trait is selected twice; the wizard is at step 1, 2 or 3. */
    predicate Valid()
      reads this
    {
      StyleSamples.Valid(styleSamples, nextId) && NoDuplicates(selectedTraits) && 1 <= step <= 3
    }

    /** The initial state, after the stored settings (`saved`, with `""` for
        what was never stored) were read back: a missing provider is
        `openai`, and a missing endpoint or model falls back to the preset of
        the provider; the form shows the same values. */
    constructor (saved: Settings)
      ensures Valid()
      ensures step == 1 && styleSamples == StyleSamples.InitialSamples && nextId == StyleSamples.InitialNextId
      ensures students == [] && csvError == "" && selectedStudent == None
      ensures generatedText == "" && apiError == "" && generationHistory == map[]
      ensures selectedTraits == [] && finalSelections == map[] && selectedQItems == map[]
      ensures !isSettingsOpen
      ensures settings == Restore(saved)
      ensures inputs == Inputs(settings.key, settings.endpoint, settings.model) == OpenForm(settings)
    {
      var restored := Restore(saved);
      step := 1;
      styleSamples := StyleSamples.InitialSamples;
      nextId := StyleSamples.InitialNextId;
      students := [];
      csvError := "";
      selectedStudent := None;
      generatedText := "";
      apiError := "";
      generationHistory := map[];
      selectedTraits := [];
      finalSelections := map[];
      selectedQItems := map[];
      isSettingsOpen := false;
      settings := restored;
      inputs := Inputs(restored.key, restored.endpoint, restored.model);
      StyleSamples.InitialValid();
    }

    /** `addStyleSample`. */
    method AddStyleSample()
      requires Valid()
      modifies this
      ensures Valid()
      ensures Snapshot() == old(Snapshot()).(styleSamples := StyleSamples.Add(old(styleSamples), old(nextId)),
                                           nextId := old(nextId) + 1)
    {
      StyleSamples.AddValid(styleSamples, nextId);
      styleSamples := StyleSamples.Add(styleSamples, nextId);
      nextId := nextId + 1;
    }

    /** `removeStyleSample`. */
    method RemoveStyleSample(id: int)
      requires Valid()
      modifies this
      ensures Valid()
      ensures Snapshot() == old(Snapshot()).(styleSamples := StyleSamples.Remove(old(styleSamples), id))
    {
      StyleSamples.RemoveValid(styleSamples, nextId, id);
      styleSamples := StyleSamples.Remove(styleSamples, id);
    }

    /** `updateStyleSample`. */
    method UpdateStyleSample(id: int, text: string)
      requires Valid()
      modifies this
      ensures Valid()
      ensures Snapshot() == old(Snapshot()).(styleSamples := StyleSamples.Update(old(styleSamples), id, text))
    {
      StyleSamples.UpdateValid(styleSamples, nextId, id, text);
      styleSamples := StyleSamples.Update(styleSamples, id, text);
    }

    /** The "next step" button of step 1, disabled while the first sample is empty. */
    method LeaveStep1()
      requires Valid() && step == 1
      modifies this
      ensures Valid()
      ensures StyleSamples.CanLeaveStep1(old(styleSamples)) ==> Snapshot() == old(Snapshot()).(step := 2)
      ensures !StyleSamples.CanLeaveStep1(old(styleSamples)) ==> Snapshot() == old(Snapshot())
    {
      if StyleSamples.CanLeaveStep1(styleSamples) {
        step := 2;
      }
    }

    /** The result of reading a student sheet (`excel` for an .xlsx or .xls
        file, else CSV): its rows, or the "no data" error of that kind of file
        when it has none. */
    method LoadStudents(rows: seq<Student>, excel: bool)
      requires Valid()
      modifies this
      ensures Valid()
      ensures rows == [] ==> Snapshot() == old(Snapshot()).(students := [], csvError := NoRows(excel))
      ensures rows != [] ==> Snapshot() == old(Snapshot()).(students := rows, csvError := "")
    {
      if rows == [] {
        csvError := NoRows(excel);
        students := [];
      } else {
        students := rows;
        csvError := "";
      }
    }

    /** A sheet that could not be read: the error of that kind of file; the
        loaded students stay. */
    method LoadFailed(excel: bool)
      requires Valid()
      modifies this
      ensures Valid()
      ensures Snapshot() == old(Snapshot()).(csvError := ReadError(excel))
    {
      csvError := ReadError(excel);
    }

    /** "Choose another file", once confirmed: the loaded students and the
        error are dropped. */
    method ChooseAnotherFile()
      requires Valid()
      modifies this
      ensures Valid()
      ensures Snapshot() == old(Snapshot()).(students := [], csvError := "")
    {
      students := [];
      csvError := "";
    }

    /** The "next step" button of step 2: refused while no student is loaded. */
    method LeaveStep2()
      requires Valid() && step == 2
      modifies this
      ensures Valid()
      ensures old(students) == [] ==> Snapshot() == old(Snapshot()).(csvError := NoStudentsYet)
      ensures old(students) != [] ==> Snapshot() == old(Snapshot()).(step := 3)
    {
      if |students| == 0 {
        csvError := NoStudentsYet;
        return;
      }
      step := 3;
    }

    /** The "previous" buttons of steps 2 and 3. */
    method GoBack()
      requires Valid() && step > 1
      modifies this
      ensures Valid()
      ensures Snapshot() == old(Snapshot()).(step := old(step) - 1)
    {
      step := step - 1;
    }

    /** A click on a student of the list opens the detail view. */
    method SelectStudent(i: nat)
      requires Valid() && i < |students|
      modifies this
      ensures Valid()
      ensures Snapshot() == old(Snapshot()).(selectedStudent := Some(old(students)[i]))
    {
      selectedStudent := Some(students[i]);
    }

    /** `toggleTrait`. */
    method ToggleTrait(t: string)
      requires Valid()
      modifies this
      ensures Valid()
      ensures Snapshot() == old(Snapshot()).(selectedTraits := Selection.ToggleTrait(old(selectedTraits), t))
    {
      ToggleTraitNoDuplicates(selectedTraits, t);
      selectedTraits := Selection.ToggleTrait(selectedTraits, t);
    }

    /** A click on a questionnaire item. */
    method ToggleQItem(k: string)
      requires Valid()
      modifies this
      ensures Valid()
      ensures Snapshot() == old(Snapshot()).(selectedQItems := ToggleQ(old(selectedQItems), k))
    {
      selectedQItems := ToggleQ(selectedQItems, k);
    }

    /** "Back to the list": the transient pieces of the detail view are reset;
        history and final selections stay. */
    method BackToList()
      requires Valid()
      modifies this
      ensures Valid()
      ensures Snapshot() == old(Snapshot()).(selectedStudent := None, generatedText := "", apiError := "",
                                           selectedTraits := [], selectedQItems := map[])
    {
      ClearOutput();
      selectedStudent := None;
      selectedTraits := [];
      selectedQItems := map[];
    }

    /** Clears the shown text and the error message. */
    method ClearOutput()
      requires Valid()
      modifies this
      ensures Valid()
      ensures Snapshot() == old(Snapshot()).(generatedText := "", apiError := "")
    {
      generatedText := "";
      apiError := "";
    }

    /** Typing in the result box. */
    method EditGeneratedText(text: string)
      requires Valid()
      modifies this
      ensures Valid()
      ensures Snapshot() == old(Snapshot()).(generatedText := text)
    {
      generatedText := text;
    }

    /** The "final choice" buttons: the shown text, or one from the history,
        becomes the final opinion of the student on view. */
    method SelectFinalOpinion(text: string)
      requires Valid() && selectedStudent.Some?
      modifies this
      ensures Valid()
      ensures Snapshot() == old(Snapshot()).(finalSelections :=
        SelectFinal(old(finalSelections), StudentKey(old(selectedStudent).value, ""), text))
    {
      finalSelections := SelectFinal(finalSelections, StudentKey(selectedStudent.value, ""), text);
    }

    /** The success path of a generation: the answer is shown and put in
        front of the history under `key`. */
    method ShowAnswer(text: string, key: string, timestamp: string)
      requires Valid()
      modifies this
      ensures Valid()
      ensures Snapshot() == old(Snapshot()).(apiError := "", generatedText := text,
        generationHistory := Prepend(old(generationHistory), key, HistoryEntry(text, timestamp)))
    {
      apiError := "";
      generatedText := text;
      generationHistory := Prepend(generationHistory, key, HistoryEntry(text, timestamp));
    }

    /** The failure path of a generation: no text, and the message, or a
        generic one when the message is empty. */
    method ShowFailure(message: string)
      requires Valid()
      modifies this
      ensures Valid()
      ensures Snapshot() == old(Snapshot()).(generatedText := "",
        apiError := if message != "" then message else UnknownError)
    {
      generatedText := "";
      apiError := if message != "" then message else UnknownError;
    }

    /** The generate button of the detail view. It is disabled without a key.
        With no ticked item it only reports so. Otherwise it clears the error
        and the shown text, asks the provider (`respond`) through
        `generateWithLLM`, and on success shows the answer and puts it in front
        of the student's history, stamped `timestamp`, under the student key
        (the clock reading `clockKey` when the record has neither a number nor
        a name); on failure it shows the message. */
    method Generate(respond: Request -> Result<string, string>, timestamp: string, clockKey: string)
      requires Valid() && selectedStudent.Some?
      modifies this
      ensures Valid()
      ensures var st := old(selectedStudent).value;
        var entries := SelectedEntries(st, old(selectedQItems));
        var prompt := Prompt.Build(old(styleSamples), entries, old(selectedTraits));
        var answer := GenerateWithLLM(old(settings), prompt, respond);
        if old(settings).key == "" then Snapshot() == old(Snapshot())
        else if entries == [] then Snapshot() == old(Snapshot()).(apiError := NoItemsSelected)
        else if answer.Ok? then
          Snapshot() == old(Snapshot()).(apiError := "", generatedText := answer.value,
            generationHistory := Prepend(old(generationHistory), StudentKey(st, clockKey),
                                         HistoryEntry(answer.value, timestamp)))
        else
          Snapshot() == old(Snapshot()).(generatedText := "",
            apiError := if answer.error != "" then answer.error else UnknownError)
    {
      if settings.key == "" {
        return;
      }
      var st := selectedStudent.value;
      var entries := SelectedEntries(st, selectedQItems);
      if |entries| == 0 {
        apiError := NoItemsSelected;
        return;
      }
      var prompt := Prompt.Build(styleSamples, entries, selectedTraits);
      var answer := GenerateWithLLM(settings, prompt, respond);
      match answer {
        case Ok(text) =>
          ShowAnswer(text, StudentKey(st, clockKey), timestamp);
        case Err(m) =>
          ShowFailure(m);
      }
    }

    /** `openSettings`. */
    method OpenSettings()
      requires Valid()
      modifies this
      ensures Valid()
      ensures Snapshot() == old(Snapshot()).(inputs := OpenForm(old(settings)), isSettingsOpen := true)
    {
      inputs := OpenForm(settings);
      isSettingsOpen := true;
    }

    /** Closing the settings window without saving: the backdrop, the `✕`
        button and the close button. The typed inputs stay as they are
        until the window is opened again. */
    method CloseSettings()
      requires Valid()
      modifies this
      ensures Valid()
      ensures Snapshot() == old(Snapshot()).(isSettingsOpen := false)
    {
      isSettingsOpen := false;
    }

    /** Typing in the settings form. */
    method EditInputs(f: Inputs)
      requires Valid()
      modifies this
      ensures Valid()
      ensures Snapshot() == old(Snapshot()).(inputs := f)
    {
      inputs := f;
    }

    /** `handleProviderChange`: the provider is taken at once, the endpoint and
        model inputs show its presets. */
    method ChangeProvider(provider: string)
      requires Valid() && Offered(provider)
      modifies this
      ensures Valid()
      ensures Snapshot() == old(Snapshot()).(settings := old(settings).(provider := provider),
                                           inputs := Llm.ChangeProvider(old(inputs), provider))
    {
      settings := settings.(provider := provider);
      inputs := Llm.ChangeProvider(inputs, provider);
    }

    /** `saveSettings`: on the first empty trimmed input only the error is set;
        otherwise the trimmed values are stored, the form closes and the error
        clears. */
    method SaveSettings()
      requires Valid()
      modifies this
      ensures Valid()
      ensures var v := ValidateInputs(old(inputs).key, old(inputs).endpoint, old(inputs).model);
        if v.Err? then Snapshot() == old(Snapshot()).(apiError := v.error)
        else Snapshot() == old(Snapshot()).(
          settings := old(settings).(key := v.value.key, endpoint := v.value.endpoint, model := v.value.model),
          isSettingsOpen := false, apiError := "")
    {
      var v := ValidateInputs(inputs.key, inputs.endpoint, inputs.model);
      match v {
        case Err(m) =>
          apiError := m;
        case Ok(saved) =>
          StoreSettings(saved);
      }
    }

    /** The success path of `saveSettings`: the values are stored, the form
        closes and the error clears. */
    method StoreSettings(saved: Saved)
      requires Valid()
      modifies this
      ensures Valid()
      ensures Snapshot() == old(Snapshot()).(
        settings := old(settings).(key := saved.key, endpoint := saved.endpoint, model := saved.model),
        isSettingsOpen := false, apiError := "")
    {
      settings := Settings(settings.provider, saved.key, saved.endpoint, saved.model);
      isSettingsOpen := false;
      apiError := "";
    }

    /** `clearSettings`: key, endpoint and model and their inputs are emptied
        (the provider stays), the form closes, the error and the shown text clear. */
    method ClearSettings()
      requires Valid()
      modifies this
      ensures Valid()
      ensures Snapshot() == old(Snapshot()).(settings := old(settings).(key := "", endpoint := "", model := ""),
                                           inputs := Inputs("", "", ""), isSettingsOpen := false,
                                           apiError := "", generatedText := "")
    {
      settings := Settings(settings.provider, "", "", "");
      inputs := Inputs("", "", "");
      isSettingsOpen := false;
      ClearOutput();
    }

    /** `exportToCSV`: `None` when there is no final selection; otherwise the
        text to download, built row by row over the students in list order. */
    method ExportCsv() returns (r: Option<string>)
      ensures r == ExportText(students, finalSelections)
    {
      var students, finalSelections := this.students, this.finalSelections;
      if |finalSelections| == 0 {
        return None;
      }
      var csv := Header;
      var i := 0;
      while i < |students|
        invariant 0 <= i <= |students|
        invariant csv == Header + RowsUpTo(students, i, finalSelections)
      {
        var line := ExportLine(students[i], finalSelections);
        RowsUpToStep(students, i, finalSelections, csv, line);
        csv := csv + line;
        i := i + 1;
      }
      ExportOfAllRows(students, finalSelections, csv);
      return Some(Bom + csv);
    }
  }
}
