/**
 * The three-step project-creation wizard: project details, dataset upload
 * and model configuration, ending in one multipart training request.
 * The file parser's result, the training service's answer and the selected
 * file are parameters of the handlers that receive them.
 */
module NewProject {
  import opened Wrappers
  import opened Lists
  import Text
  import Json

  /** The selected file as the handlers see it: `file.name` and `file.type`; its bytes are not modelled. */
  datatype FileInfo = FileInfo(name: string, mimeType: string)

  const CsvType: string := "text/csv"

  /** The media types the upload step accepts. */
  const AcceptedTypes: seq<string> := [
    "text/csv",
    "application/vnd.ms-excel",
    "application/vnd.openxmlformats-officedocument.spreadsheetml.sheet",
    "application/json"
  ]

  predicate IsAccepted(f: FileInfo) {
    f.mimeType in AcceptedTypes
  }

  const UnsupportedTypeMessage: string := "Please upload a CSV, Excel, or JSON file"
  const ParseErrorMessage: string := "Error parsing CSV file. Please check the file format."
  const LimitedPreviewMessage: string :=
    "For best results, please use CSV files. Other file formats have limited preview support."
  const RequiredFieldsMessage: string := "Please fill in all required fields"
  const MissingDatasetMessage: string := "Please upload a dataset"
  const TrainFailedMessage: string := "Failed to train model"
  const CreateFailedMessage: string := "Failed to create project. Please try again."
  const CreatedMessage: string := "Project created successfully! Your model is now training."

  /** The column inventory shown for files the client does not parse. */
  const PlaceholderColumns: seq<string> := ["Column1", "Column2", "Column3", "Column4", "Column5"]

  /** At most this many data rows are previewed. */
  const PreviewRowLimit: nat := 5

  // ---------------------------------------------------------------- parsing

  /** One CSV record keyed by header field; a field the record lacks reads as `undefined`. */
  type Row = map<string, string>

  /** What the CSV parser reports: `meta.fields` and `data`, or its error callback. */
  datatype ParseOutcome = Parsed(fields: seq<string>, data: seq<Row>) | ParseFailed

  datatype Preview = Preview(headers: seq<string>, rows: seq<seq<Option<string>>>)

  const PlaceholderPreview: Preview := Preview(["File loaded successfully"], [])

  /** `row[col]`. */
  function Cell(row: Row, column: string): Option<string> {
    if column in row then Some(row[column]) else None
  }

  /** `columns.map(col => row[col])`. */
  function ProjectRow(columns: seq<string>, row: Row): (cells: seq<Option<string>>)
    ensures |cells| == |columns|
    ensures forall j :: 0 <= j < |columns| ==> cells[j] == Cell(row, columns[j])
  {
    if columns == [] then [] else [Cell(row, columns[0])] + ProjectRow(columns[1..], row)
  }

  /** `data.slice(0, 5).map(row => columns.map(col => row[col]))`. */
  function PreviewRows(columns: seq<string>, data: seq<Row>, limit: nat): (rows: seq<seq<Option<string>>>)
    ensures |rows| == if |data| < limit then |data| else limit
    ensures forall i :: 0 <= i < |rows| ==> rows[i] == ProjectRow(columns, data[i])
  {
    if data == [] || limit == 0 then []
    else [ProjectRow(columns, data[0])] + PreviewRows(columns, data[1..], limit - 1)
  }

  /** The CSV preview: the header fields and the first min(5, n) records in header order. */
  function CsvPreview(fields: seq<string>, data: seq<Row>): (p: Preview)
    ensures p.headers == fields
    ensures |p.rows| == if |data| < 5 then |data| else 5
    ensures forall i, j :: 0 <= i < |p.rows| && 0 <= j < |fields| ==>
              |p.rows[i]| == |fields| && p.rows[i][j] == Cell(data[i], fields[j])
  {
    Preview(fields, PreviewRows(fields, data, PreviewRowLimit))
  }

  /**
   * `files.find(...)` over a dropped file list: the first file of an
   * accepted type, if any.
   */
  function FirstAccepted(files: seq<FileInfo>): (r: Option<FileInfo>)
    ensures r.None? <==> forall i :: 0 <= i < |files| ==> !IsAccepted(files[i])
    ensures r.Some? ==> exists i :: 0 <= i < |files| && files[i] == r.value && IsAccepted(files[i])
                                   && forall j :: 0 <= j < i ==> !IsAccepted(files[j])
  {
    if files == [] then None
    else if IsAccepted(files[0]) then Some(files[0])
    else
      var r := FirstAccepted(files[1..]);
      assert r.Some? ==> exists i :: 0 <= i < |files| && files[i] == r.value && IsAccepted(files[i])
                                     && forall j :: 0 <= j < i ==> !IsAccepted(files[j]) by {
        if r.Some? {
          var k :| 0 <= k < |files[1..]| && files[1..][k] == r.value && IsAccepted(files[1..][k])
                   && forall j :: 0 <= j < k ==> !IsAccepted(files[1..][j]);
          assert forall j :: 0 <= j < k + 1 ==> !IsAccepted(files[j]) by {
            forall j | 0 <= j < k + 1 ensures !IsAccepted(files[j]) {
              if j > 0 { assert files[j] == files[1..][j - 1]; }
            }
          }
        }
      }
      r
  }

  // ---------------------------------------------------------------- configuration

  /** `getDefaultTaskType`: the task type a project type suggests, or '' for anything else. */
  function DefaultTaskType(projectType: string): string {
    if projectType == "predictor" then "regression"
    else if projectType == "classifier" then "classification"
    else if projectType == "cluster" then "clustering"
    else ""
  }

  /** The three project types and only they suggest a task type, each a different one. */
  lemma DefaultTaskTypeCases(a: string, b: string)
    ensures DefaultTaskType(a) != "" <==> a in ["predictor", "classifier", "cluster"]
    ensures DefaultTaskType(a) == DefaultTaskType(b) != "" ==> a == b
  {
  }

  datatype ModelSettings = ModelSettings(
    trainingPercentage: int,
    advancedOptions: bool,
    optimizationMetric: string,
    taskType: string)

  const InitialSettings: ModelSettings := ModelSettings(80, false, "accuracy", "")

  /** `availableColumns.filter(col => col !== target)`: the features after choosing a target. */
  function FeaturesForTarget(available: seq<string>, target: string): (r: seq<string>)
    ensures target !in r
    ensures forall c :: c in r <==> c in available && c != target
    ensures IsSubsequence(r, available)
    ensures NoDuplicates(available) ==> NoDuplicates(r)
  {
    RemoveAll(available, target)
  }

  /** `handleFeatureColumnToggle`'s new feature list: the target is never toggled. */
  function ToggleFeature(features: seq<string>, target: string, column: string): (r: seq<string>)
    ensures target !in features ==> target !in r
    ensures column != target ==> (column in r <==> column !in features)
    ensures forall c :: c != column ==> (c in r <==> c in features)
    ensures NoDuplicates(features) ==> NoDuplicates(r)
    ensures column == target ==> r == features
    ensures column != target && column !in features ==> r == features + [column]
    ensures column != target && column in features ==> r == RemoveAll(features, column)
  {
    if column == target then features
    else
      ToggleNoDuplicates(features, column);
      Toggle(features, column)
  }

  // ---------------------------------------------------------------- submission

  datatype FormValue = FileValue(file: FileInfo) | TextValue(text: string) | NumberValue(number: int)

  /** One `formData.append(name, value)`. */
  datatype FormField = FormField(name: string, value: FormValue)

  /** The multipart body of the training request, field by field in append order. */
  function TrainingPayload(
    file: FileInfo, target: string, features: seq<string>,
    name: string, description: string, settings: ModelSettings): seq<FormField>
  {
    [ FormField("file", FileValue(file)),
      FormField("target_column", TextValue(target)),
      FormField("task_type", TextValue(settings.taskType)),
      FormField("feature_columns", TextValue(Json.StringifyList(features))),
      FormField("project_name", TextValue(name)),
      FormField("project_description", TextValue(description)),
      FormField("optimization_metric", TextValue(settings.optimizationMetric)) ]
    + if settings.advancedOptions
      then [FormField("training_percentage", NumberValue(settings.trainingPercentage))]
      else []
  }

  function FieldNames(fields: seq<FormField>): seq<string> {
    seq(|fields|, i requires 0 <= i < |fields| => fields[i].name)
  }

  /** The request carries the seven fields in order, and the training split only with advanced options on. */
  lemma PayloadFields(
    file: FileInfo, target: string, features: seq<string>,
    name: string, description: string, settings: ModelSettings)
    ensures var p := TrainingPayload(file, target, features, name, description, settings);
            && FieldNames(p) == ["file", "target_column", "task_type", "feature_columns",
                                 "project_name", "project_description", "optimization_metric"]
                                + (if settings.advancedOptions then ["training_percentage"] else [])
            && p[0].value == FileValue(file)
            && p[1].value == TextValue(target)
            && p[2].value == TextValue(settings.taskType)
            && p[4].value == TextValue(name)
            && p[5].value == TextValue(description)
            && p[6].value == TextValue(settings.optimizationMetric)
            && (settings.advancedOptions ==> p[7].value == NumberValue(settings.trainingPercentage))
  {
  }

  /** The `feature_columns` text decodes to exactly the selected features, in order. */
  lemma PayloadFeatureColumns(
    file: FileInfo, target: string, features: seq<string>,
    name: string, description: string, settings: ModelSettings)
    ensures var p := TrainingPayload(file, target, features, name, description, settings);
            p[3].name == "feature_columns" && p[3].value.TextValue?
            && Json.ParseList(p[3].value.text) == Some(features)
  {
    Json.ListRoundTrip(features);
  }

  /** What the training service answered: success with an optional id, an error status, or a thrown error. */
  datatype SubmitOutcome =
    | Accepted(trainingId: string)   // '' when the response has no (truthy) training_id
    | Refused(detail: string)        // '' when the error body has no (truthy) detail
    | Thrown(message: string)        // network failure or unreadable body; '' when it has no message

  /** The message the catch block shows for a failed submission. */
  function SubmitErrorText(outcome: SubmitOutcome): (msg: string)
    requires !outcome.Accepted?
    ensures msg != ""
    ensures outcome.Refused? && outcome.detail != "" ==> msg == outcome.detail
    ensures outcome.Thrown? && outcome.message != "" ==> msg == outcome.message
    ensures outcome.Refused? && outcome.detail == "" ==> msg == TrainFailedMessage
    ensures outcome.Thrown? && outcome.message == "" ==> msg == CreateFailedMessage
  {
    match outcome
    case Refused(detail) => if detail != "" then detail else TrainFailedMessage
    case Thrown(message) => if message != "" then message else CreateFailedMessage
  }

  /** The navigation to the info page after a successful submission. */
  datatype InfoRedirect = InfoRedirect(message: string, kind: string, trainingId: Option<string>)

  // ---------------------------------------------------------------- the wizard state

  /** A snapshot of every piece of wizard state, to say what a handler changes. */
  datatype WizardState = WizardState(
    step: int,
    loading: bool,
    error: string,
    projectName: string,
    projectDescription: string,
    projectType: string,
    datasetFile: Option<FileInfo>,
    datasetName: string,
    dataPreview: Option<Preview>,
    targetColumn: string,
    featureColumns: seq<string>,
    availableColumns: seq<string>,
    modelSettings: ModelSettings,
    modelReady: bool,
    trainingId: Option<string>)

  /** The submit handler's validation gate. */
  predicate ReadyToSubmit(s: WizardState) {
    && s.projectName != ""
    && s.projectType != ""
    && s.datasetFile.Some?
    && s.targetColumn != ""
    && |s.featureColumns| > 0
    && s.modelSettings.taskType != ""
  }

  /** The state after `handleFileChange` received `file` and, for a CSV file, the parser's `outcome`. */
  ghost function AfterFileChange(s: WizardState, file: Option<FileInfo>, outcome: ParseOutcome): WizardState {
    match file
    case None => s
    case Some(f) =>
      if !IsAccepted(f) then s.(error := UnsupportedTypeMessage)
      else
        var loaded := s.(datasetFile := Some(f), datasetName := f.name);
        if f.mimeType == CsvType then
          match outcome
          case Parsed(fields, data) =>
            loaded.(availableColumns := fields, dataPreview := Some(CsvPreview(fields, data)), error := "")
          case ParseFailed => loaded.(error := ParseErrorMessage)
        else
          loaded.(error := LimitedPreviewMessage, dataPreview := Some(PlaceholderPreview),
                  availableColumns := PlaceholderColumns)
  }

  /** An unaccepted file only sets the message; a parse failure leaves the columns and preview as they were. */
  lemma FileChangeKeepsColumnsOnFailure(s: WizardState, f: FileInfo, outcome: ParseOutcome)
    requires !IsAccepted(f) || (f.mimeType == CsvType && outcome.ParseFailed?)
    ensures var t := AfterFileChange(s, Some(f), outcome);
            && t.availableColumns == s.availableColumns
            && t.dataPreview == s.dataPreview
            && t.targetColumn == s.targetColumn
            && t.featureColumns == s.featureColumns
            && (IsAccepted(f) ==> t.datasetFile == Some(f) && t.error == ParseErrorMessage)
            && (!IsAccepted(f) ==> t == s.(error := UnsupportedTypeMessage))
  {
  }

  class Wizard {
    var step: int
    var loading: bool
    var error: string
    var projectName: string
    var projectDescription: string
    var projectType: string
    var datasetFile: Option<FileInfo>
    var datasetName: string
    var dataPreview: Option<Preview>
    var targetColumn: string
    var featureColumns: seq<string>
    var availableColumns: seq<string>
    var modelSettings: ModelSettings
    var modelReady: bool
    var trainingId: Option<string>

    function State(): WizardState
      reads this
    {
      WizardState(step, loading, error, projectName, projectDescription, projectType,
                  datasetFile, datasetName, dataPreview, targetColumn, featureColumns,
                  availableColumns, modelSettings, modelReady, trainingId)
    }

    /** The selection invariant: the target column is never a feature. */
    predicate Valid()
      reads this
    {
      targetColumn !in featureColumns
    }

    constructor ()
      ensures Valid()
      ensures State() == WizardState(1, false, "", "", "", "", None, "", None, "", [], [],
                                     InitialSettings, false, None)
    {
      step, loading, error := 1, false, "";
      projectName, projectDescription, projectType := "", "", "";
      datasetFile, datasetName, dataPreview := None, "", None;
      targetColumn, featureColumns, availableColumns := "", [], [];
      modelSettings := InitialSettings;
      modelReady, trainingId := false, None;
    }

    method SetProjectName(name: string)
      modifies this
      ensures State() == old(State()).(projectName := name)
    {
      projectName := name;
    }

    method SetProjectDescription(description: string)
      modifies this
      ensures State() == old(State()).(projectDescription := description)
    {
      projectDescription := description;
    }

    /**
     * Choosing a project type, followed by the effect that runs when
     * `projectType` changed to a non-empty value: only the task type follows.
     */
    method SetProjectType(t: string)
      modifies this
      ensures State() == if t != old(projectType) && t != ""
                         then old(State()).(projectType := t,
                                            modelSettings := old(modelSettings).(taskType := DefaultTaskType(t)))
                         else old(State()).(projectType := t)
    {
      var changed := t != projectType;
      projectType := t;
      if changed && projectType != "" {
        modelSettings := modelSettings.(taskType := DefaultTaskType(projectType));
      }
    }

    /** `handleFileChange`, with the parser's result for a CSV file delivered as `outcome`. */
    method HandleFileChange(file: Option<FileInfo>, outcome: ParseOutcome)
      requires Valid()
      modifies this
      ensures Valid()
      ensures State() == AfterFileChange(old(State()), file, outcome)
    {
      if file.None? {
        return;
      }
      var f := file.value;
      if f.mimeType !in AcceptedTypes {
        error := UnsupportedTypeMessage;
        return;
      }
      datasetFile := Some(f);
      datasetName := f.name;
      if f.mimeType == CsvType {
        match outcome
        case Parsed(fields, data) =>
          availableColumns := fields;
          dataPreview := Some(CsvPreview(fields, data));
          error := "";
        case ParseFailed =>
          error := ParseErrorMessage;
      } else {
        error := LimitedPreviewMessage;
        dataPreview := Some(PlaceholderPreview);
        availableColumns := PlaceholderColumns;
      }
    }

    /** `handleDrop`: the first dropped file of an accepted type goes through `handleFileChange`. */
    method HandleDrop(files: seq<FileInfo>, outcome: ParseOutcome)
      requires Valid()
      modifies this
      ensures Valid()
      ensures State() == if files == [] then old(State())
                         else match FirstAccepted(files)
                              case Some(f) => AfterFileChange(old(State()), Some(f), outcome)
                              case None => old(State()).(error := UnsupportedTypeMessage)
    {
      if |files| > 0 {
        var valid := FirstAccepted(files);
        if valid.Some? {
          HandleFileChange(valid, outcome);
        } else {
          error := UnsupportedTypeMessage;
        }
      }
    }

    /** `handleTargetColumnChange`: the features restart from every other available column. */
    method HandleTargetColumnChange(selected: string)
      modifies this
      ensures Valid()
      ensures State() == old(State()).(targetColumn := selected,
                                       featureColumns := FeaturesForTarget(old(availableColumns), selected))
    {
      targetColumn := selected;
      featureColumns := FeaturesForTarget(availableColumns, selected);
    }

    /** `handleFeatureColumnToggle`. */
    method HandleFeatureColumnToggle(column: string)
      requires Valid()
      modifies this
      ensures Valid()
      ensures State() == old(State()).(featureColumns := ToggleFeature(old(featureColumns), targetColumn, column))
    {
      featureColumns := ToggleFeature(featureColumns, targetColumn, column);
    }

    /** `handleTrainingPercentageChange`, with the slider's value already read as an integer. */
    method HandleTrainingPercentageChange(value: int)
      modifies this
      ensures State() == old(State()).(modelSettings := old(modelSettings).(trainingPercentage := value))
    {
      modelSettings := modelSettings.(trainingPercentage := value);
    }

    method HandleOptimizationMetricChange(metric: string)
      modifies this
      ensures State() == old(State()).(modelSettings := old(modelSettings).(optimizationMetric := metric))
    {
      modelSettings := modelSettings.(optimizationMetric := metric);
    }

    method ToggleAdvancedOptions()
      modifies this
      ensures State() == old(State()).(modelSettings := old(modelSettings).(advancedOptions := !old(modelSettings.advancedOptions)))
    {
      modelSettings := modelSettings.(advancedOptions := !modelSettings.advancedOptions);
    }

    /** The task-type selector's change handler. */
    method HandleTaskTypeChange(taskType: string)
      modifies this
      ensures State() == old(State()).(modelSettings := old(modelSettings).(taskType := taskType))
    {
      modelSettings := modelSettings.(taskType := taskType);
    }

    /**
     * `handleCreateProject`: the validation gate, then one training request
     * whose answer is `outcome`. Returns the request sent, if any, and the
     * redirect taken on success.
     */
    method HandleCreateProject(outcome: SubmitOutcome) returns (request: Option<seq<FormField>>, redirect: Option<InfoRedirect>)
      requires Valid()
      modifies this
      ensures Valid()
      ensures !ReadyToSubmit(old(State())) ==>
                request.None? && redirect.None? && State() == old(State()).(error := RequiredFieldsMessage)
      ensures ReadyToSubmit(old(State())) ==>
                request == Some(TrainingPayload(old(datasetFile).value, old(targetColumn), old(featureColumns),
                                                old(projectName), old(projectDescription), old(modelSettings)))
      ensures ReadyToSubmit(old(State())) && outcome.Accepted? ==>
                var id := if outcome.trainingId != "" then Some(outcome.trainingId) else None;
                && redirect == Some(InfoRedirect(CreatedMessage, "success", id))
                && State() == old(State()).(loading := false, error := "", modelReady := true,
                                            trainingId := if id.Some? then id else old(trainingId))
      ensures ReadyToSubmit(old(State())) && !outcome.Accepted? ==>
                && redirect.None?
                && State() == old(State()).(loading := false, error := SubmitErrorText(outcome))
    {
      if projectName == "" || projectType == "" || datasetFile.None? || targetColumn == ""
         || |featureColumns| == 0 || modelSettings.taskType == "" {
        error := RequiredFieldsMessage;
        return None, None;
      }
      loading := true;
      error := "";
      var payload := TrainingPayload(datasetFile.value, targetColumn, featureColumns,
                                     projectName, projectDescription, modelSettings);
      request := Some(payload);
      match outcome {
        case Accepted(id) =>
          if id != "" {
            trainingId := Some(id);
          }
          modelReady := true;
          redirect := Some(InfoRedirect(CreatedMessage, "success", if id != "" then Some(id) else None));
        case _ =>
          error := SubmitErrorText(outcome);
          redirect := None;
      }
      loading := false;
    }

    /** `goToNextStep`: the details step needs a name and a type, the upload step a file. */
    method GoToNextStep()
      modifies this
      ensures old(step) == 1 && (old(projectName) == "" || old(projectType) == "") ==>
                State() == old(State()).(error := RequiredFieldsMessage)
      ensures old(step) == 2 && old(datasetFile).None? ==>
                State() == old(State()).(error := MissingDatasetMessage)
      ensures !(old(step) == 1 && (old(projectName) == "" || old(projectType) == ""))
              && !(old(step) == 2 && old(datasetFile).None?) ==>
                State() == old(State()).(step := old(step) + 1, error := "")
    {
      if step == 1 && (projectName == "" || projectType == "") {
        error := RequiredFieldsMessage;
        return;
      }
      if step == 2 && datasetFile.None? {
        error := MissingDatasetMessage;
        return;
      }
      error := "";
      step := step + 1;
    }

    /** `goToPreviousStep`: always allowed, and nothing entered is lost. */
    method GoToPreviousStep()
      modifies this
      ensures State() == old(State()).(step := old(step) - 1, error := "")
    {
      error := "";
      step := step - 1;
    }
  }
}
