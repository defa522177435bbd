/**
 * The request handlers: creating a workflow, fetching a workflow with its
 * fields and their prompts, creating a field together with its prompt, and
 * executing a workflow against user input. Each handler works on a
 * `Database` passed in; what the store and the generation service would
 * answer is given as outcomes. Handlers that change the store are tied to a
 * pure effect on the tables, about which the lemmas below speak.
 */
module Api {
  import opened Wrappers
  import opened Text
  import opened Uuids
  import opened Models
  import opened Services
  import opened Store

  /** An HTTP error response: status code and detail text. */
  datatype HttpError = HttpError(status: int, detail: string)

  /** An exception on its way out of a handler's `try` block. */
  datatype Raised = HttpRaised(error: HttpError) | OtherRaised(message: string)

  const INVALID_WORKFLOW_ID := HttpError(400, "Invalid workflow ID format")
  const WORKFLOW_NOT_FOUND := HttpError(404, "Workflow not found")
  const NO_FIELDS := HttpError(404, "No fields found for this workflow")
  const FIELD_WORKFLOW_MISMATCH := HttpError(400, "Field workflow_id must match the URL workflow_id")
  const PROMPT_FIELD_MISMATCH := HttpError(400, "Prompt field_id must match the created field ID")
  const WORKFLOW_NOT_CREATED := HttpError(500, "Failed to create workflow")
  const FIELD_NOT_CREATED := HttpError(500, "Failed to create field")
  const PROMPT_NOT_CREATED := HttpError(500, "Failed to create prompt")
  const WORKFLOW_CONFLICT := "A workflow with this name already exists"
  const FIELD_CONFLICT := "A field with this name already exists in this workflow"
  const DATABASE_ERROR := "Database error: "
  const EXECUTION_ERROR := "Unexpected error during workflow execution: "
  const NO_PROMPTS := "No prompts found for this field"
  const DUPLICATE_KEY := "duplicate key value"

  // ---------------------------------------------------------------------------
  // Error classification
  // ---------------------------------------------------------------------------

  /** The store's message reports a uniqueness violation: it contains the marker, ignoring case. */
  predicate IsDuplicateKey(message: string)
  {
    Contains(Lower(message), DUPLICATE_KEY)
  }

  /** The marker is found whatever the case of the letters in the store's message. */
  lemma DuplicateKeyIgnoresCase(message: string, marker: string)
    requires Contains(message, marker) && Lower(marker) == DUPLICATE_KEY
    ensures IsDuplicateKey(message)
  {
    ContainsLower(message, marker);
  }

  /**
   * The handler of `create_field_with_prompt` (and the evidently intended
   * one of `create_workflow`): an HTTP error passes through unchanged; any
   * other exception becomes 409 with `conflictDetail` when it reports a
   * duplicate key and 500 with the database-error detail otherwise.
   */
  function HandleException(x: Raised, conflictDetail: string): (e: HttpError)
    ensures x.HttpRaised? ==> e == x.error
    ensures x.OtherRaised? ==> (e.status == 409 <==> IsDuplicateKey(x.message))
    ensures x.OtherRaised? && IsDuplicateKey(x.message) ==> e == HttpError(409, conflictDetail)
    ensures x.OtherRaised? && !IsDuplicateKey(x.message) ==> e == HttpError(500, DATABASE_ERROR + x.message)
  {
    match x
    case HttpRaised(h) => h
    case OtherRaised(m) =>
      if Contains(Lower(m), DUPLICATE_KEY) then HttpError(409, conflictDetail) else HttpError(500, DATABASE_ERROR + m)
  }

  /**
   * The handler of `get_workflow` and `execute_workflow`: an HTTP error
   * passes through; every other exception is a 500 whose detail is `prefix`
   * followed by the exception's text. There is no conflict case.
   */
  function HandleWithoutConflict(x: Raised, prefix: string): (e: HttpError)
    ensures x.HttpRaised? ==> e == x.error
    ensures x.OtherRaised? ==> e == HttpError(500, prefix + x.message)
  {
    match x
    case HttpRaised(h) => h
    case OtherRaised(m) => HttpError(500, prefix + m)
  }

  /** `str(e)`: an HTTP error prints as `"<status>: <detail>"`, any other exception as its message. */
  function ExceptionText(x: Raised): (r: string)
    ensures x.OtherRaised? ==> r == x.message
    ensures x.HttpRaised? ==>
              var d := x.error.detail;
              && |r| >= |d| + 3
              && r[|r| - |d| - 2..] == ": " + d
              && (x.error.status >= 0 ==> r[..|r| - |d| - 2] == DecimalString(x.error.status))
  {
    match x
    case HttpRaised(h) => (if h.status >= 0 then DecimalString(h.status) else "-" + DecimalString(-h.status)) + ": " + h.detail
    case OtherRaised(m) => m
  }

  /**
   * The handler of `create_workflow` as written: it has no clause that lets an
   * HTTP error through, so every exception, its own 500 included, is
   * classified by its printed text.
   */
  function HandleCreateWorkflowException(x: Raised): (e: HttpError)
    ensures e.status == 409 <==> IsDuplicateKey(ExceptionText(x))
    ensures !IsDuplicateKey(ExceptionText(x)) ==> e == HttpError(500, DATABASE_ERROR + ExceptionText(x))
    ensures IsDuplicateKey(ExceptionText(x)) ==> e.detail == WORKFLOW_CONFLICT
  {
    var text := ExceptionText(x);
    if Contains(Lower(text), DUPLICATE_KEY) then HttpError(409, WORKFLOW_CONFLICT) else HttpError(500, DATABASE_ERROR + text)
  }

  function MapError<T>(r: Result<T, Raised>, handle: Raised -> HttpError): Result<T, HttpError>
  {
    match r
    case Ok(v) => Ok(v)
    case Err(x) => Err(handle(x))
  }

  // ---------------------------------------------------------------------------
  // create_workflow
  // ---------------------------------------------------------------------------

  /** The `try` block of `create_workflow`: insert, and insist on a returned row. */
  function CreateWorkflowSteps(t: Tables, data: WorkflowCreate, o: InsertOutcome): (r: (Tables, Result<Workflow, Raised>))
    ensures r.0 == WorkflowInsert(t, data.name, o).0
    ensures o.Inserted? ==> r.1 == Ok(Workflow(o.id, data.name, o.createdAt))
    ensures o.NoData? ==> r.1 == Err(HttpRaised(WORKFLOW_NOT_CREATED))
    ensures o.Raises? ==> r.1 == Err(OtherRaised(o.message))
  {
    var (t1, reply) := WorkflowInsert(t, data.name, o);
    match reply
    case Err(m) => (t1, Err(OtherRaised(m)))
    case Ok(rows) => if rows == [] then (t1, Err(HttpRaised(WORKFLOW_NOT_CREATED))) else (t1, Ok(rows[0]))
  }

  /** `create_workflow` as written. */
  function CreateWorkflowEffect(t: Tables, data: WorkflowCreate, o: InsertOutcome): (r: (Tables, Result<Workflow, HttpError>))
    ensures !o.Inserted? ==> r.0 == t
    ensures r.1.Ok? <==> o.Inserted?
    ensures o.NoData? ==> r.1 == Err(HandleCreateWorkflowException(HttpRaised(WORKFLOW_NOT_CREATED)))
    ensures o.Raises? ==> r.1 == Err(HandleCreateWorkflowException(OtherRaised(o.message)))
  {
    var (t1, r) := CreateWorkflowSteps(t, data, o);
    (t1, MapError(r, HandleCreateWorkflowException))
  }

  /** `create_workflow` with its own HTTP error let through, as the other handlers do. */
  function CreateWorkflowEffectCorrected(t: Tables, data: WorkflowCreate, o: InsertOutcome)
    : (r: (Tables, Result<Workflow, HttpError>))
    ensures !o.Inserted? ==> r.0 == t
    ensures r.1.Ok? <==> o.Inserted?
    ensures o.NoData? ==> r.1 == Err(WORKFLOW_NOT_CREATED)
    ensures o.Raises? ==> r.1 == Err(HandleException(OtherRaised(o.message), WORKFLOW_CONFLICT))
  {
    var (t1, r) := CreateWorkflowSteps(t, data, o);
    (t1, MapError(r, x => HandleException(x, WORKFLOW_CONFLICT)))
  }

  /**
   * A successful insert appends exactly the new row and returns it; a later
   * lookup by the new id finds it after anything that already had that id.
   */
  lemma CreateWorkflowInserts(t: Tables, data: WorkflowCreate, o: InsertOutcome)
    requires o.Inserted?
    ensures var w := Workflow(o.id, data.name, o.createdAt);
            && CreateWorkflowEffect(t, data, o) == (t.(workflows := t.workflows + [w]), Ok(w))
            && WorkflowsWithId(CreateWorkflowEffect(t, data, o).0.workflows, o.id) == WorkflowsWithId(t.workflows, o.id) + [w]
  {
    AppendedWorkflowIsSelected(t.workflows, Workflow(o.id, data.name, o.createdAt));
  }

  /**
   * A raising insert changes nothing; it is a 409 exactly when its message
   * reports a duplicate key, and a 500 carrying the message otherwise.
   */
  lemma CreateWorkflowClassifiesStoreError(t: Tables, data: WorkflowCreate, m: string)
    ensures CreateWorkflowEffect(t, data, Raises(m)).0 == t
    ensures IsDuplicateKey(m) ==> CreateWorkflowEffect(t, data, Raises(m)).1 == Err(HttpError(409, WORKFLOW_CONFLICT))
    ensures !IsDuplicateKey(m) ==> CreateWorkflowEffect(t, data, Raises(m)).1 == Err(HttpError(500, DATABASE_ERROR + m))
  {
  }


  /**
   * As written, an insert that returns no row does not yield the handler's
   * own "Failed to create workflow": that error is caught again and
   * re-wrapped as a database error quoting its printed form.
   */
  lemma CreateWorkflowRewrapsItsOwnError(t: Tables, data: WorkflowCreate)
    ensures CreateWorkflowEffect(t, data, NoData) == (t, Err(HttpError(500, DATABASE_ERROR + REWRAPPED)))
    ensures CreateWorkflowEffect(t, data, NoData).1 != Err(WORKFLOW_NOT_CREATED)
  {
    RewrappedText();
    RewrappedIsNoDuplicate();
  }

  /** The printed form of the handler's own 500. */
  const REWRAPPED := "500" + ": " + "Failed to create workflow"

  lemma DecimalFiveHundred()
    ensures DecimalString(500) == "500"
  {
    assert DecimalString(50) == "50" by {
      assert DecimalString(5) == "5";
    }
  }

  lemma RewrappedText()
    ensures ExceptionText(HttpRaised(WORKFLOW_NOT_CREATED)) == REWRAPPED
  {
    var h := WORKFLOW_NOT_CREATED;
    assert h.status == 500 && h.detail == "Failed to create workflow";
    DecimalFiveHundred();
  }

  lemma RewrappedIsNoDuplicate()
    ensures !IsDuplicateKey(REWRAPPED)
  {
    assert 'u' !in REWRAPPED && 'U' !in REWRAPPED;
    LowerAvoids(REWRAPPED, 'u', 'U');
    MissingCharNotContained(Lower(REWRAPPED), DUPLICATE_KEY, 'u');
  }

  /**
   * Corrected, an insert without a row yields exactly "Failed to create
   * workflow", and every other outcome is handled as before.
   */
  lemma CreateWorkflowCorrectedReportsFailure(t: Tables, data: WorkflowCreate, o: InsertOutcome)
    ensures o.NoData? ==> CreateWorkflowEffectCorrected(t, data, o) == (t, Err(WORKFLOW_NOT_CREATED))
    ensures !o.NoData? ==> CreateWorkflowEffectCorrected(t, data, o) == CreateWorkflowEffect(t, data, o)
  {
  }

  /** `create_workflow` as written, over the store. */
  method CreateWorkflow(db: Database, data: WorkflowCreate, o: InsertOutcome) returns (r: Result<Workflow, HttpError>)
    modifies db
    ensures (db.State(), r) == CreateWorkflowEffect(old(db.State()), data, o)
  {
    var reply := db.InsertWorkflow(data.name, o);
    var raised: Raised;
    match reply {
      case Err(m) =>
        raised := OtherRaised(m);
      case Ok(rows) =>
        if rows != [] {
          return Ok(rows[0]);
        }
        raised := HttpRaised(WORKFLOW_NOT_CREATED);
    }
    r := Err(HandleCreateWorkflowException(raised));
  }

  /** `create_workflow` with the corrected handler, over the store. */
  method CreateWorkflowCorrected(db: Database, data: WorkflowCreate, o: InsertOutcome)
    returns (r: Result<Workflow, HttpError>)
    modifies db
    ensures (db.State(), r) == CreateWorkflowEffectCorrected(old(db.State()), data, o)
  {
    var reply := db.InsertWorkflow(data.name, o);
    match reply {
      case Err(m) =>
        r := Err(HandleException(OtherRaised(m), WORKFLOW_CONFLICT));
      case Ok(rows) =>
        r := if rows != [] then Ok(rows[0]) else Err(WORKFLOW_NOT_CREATED);
    }
  }

  // ---------------------------------------------------------------------------
  // create_field_with_prompt
  // ---------------------------------------------------------------------------

  /** What the store does at each step of one `create_field_with_prompt` call. */
  datatype CreateFieldOutcomes = CreateFieldOutcomes(
    workflowLookup: Option<string>,
    fieldInsert: InsertOutcome,
    promptInsert: InsertOutcome,
    cleanup: Option<string>)

  /**
   * The checks made before anything is written: the path id parses, the
   * workflow lookup does not raise and finds the workflow, and the body's
   * workflow id is the path's.
   */
  function CreateFieldChecks(t: Tables, workflowIdText: string, fieldData: FieldCreate, lookup: Option<string>)
    : (r: Result<Uuid, Raised>)
    ensures r.Ok? ==> ParseUuid(workflowIdText) == Some(r.value) && fieldData.workflowId == r.value
  {
    match ParseUuid(workflowIdText)
    case None => Err(HttpRaised(INVALID_WORKFLOW_ID))
    case Some(wid) =>
      if lookup.Some? then Err(OtherRaised(lookup.value))
      else if WorkflowsWithId(t.workflows, wid) == [] then Err(HttpRaised(WORKFLOW_NOT_FOUND))
      else if fieldData.workflowId != wid then Err(HttpRaised(FIELD_WORKFLOW_MISMATCH))
      else Ok(wid)
  }

  /** Whether a request gets past the checks, stated without `CreateFieldChecks`. */
  ghost predicate PassesChecks(t: Tables, workflowIdText: string, fieldData: FieldCreate, lookup: Option<string>)
  {
    && ParseUuid(workflowIdText).Some?
    && lookup.None?
    && WorkflowsWithId(t.workflows, ParseUuid(workflowIdText).value) != []
    && fieldData.workflowId == ParseUuid(workflowIdText).value
  }

  /** The compensating delete of the new field, then the pending exception (or the delete's own, if it raises). */
  function Compensate<T>(t: Tables, fieldId: Uuid, cleanup: Option<string>, pending: Raised): (Tables, Result<T, Raised>)
  {
    var (t1, fault) := FieldDelete(t, fieldId, cleanup);
    (t1, Err(if fault.Some? then OtherRaised(fault.value) else pending))
  }

  /** The `try` block of `create_field_with_prompt` as written. */
  function CreateFieldSteps(
    t: Tables, workflowIdText: string, fieldData: FieldCreate, promptData: PromptCreate, o: CreateFieldOutcomes)
    : (r: (Tables, Result<FieldWithPrompts, Raised>))
    ensures CreateFieldChecks(t, workflowIdText, fieldData, o.workflowLookup).Err? ==>
              r == (t, Err(CreateFieldChecks(t, workflowIdText, fieldData, o.workflowLookup).error))
    ensures r.0.workflows == t.workflows
    ensures r.1.Err? ==> r.0.prompts == t.prompts
    ensures r.1.Ok? ==> o.fieldInsert.Inserted? && o.promptInsert.Inserted? && r.1.value.field.id == promptData.fieldId
  {
    match CreateFieldChecks(t, workflowIdText, fieldData, o.workflowLookup)
    case Err(x) => (t, Err(x))
    case Ok(wid) =>
      var (t1, fieldReply) := FieldInsert(t, wid, fieldData.name, fieldData.dataType, o.fieldInsert);
      if fieldReply.Err? then (t1, Err(OtherRaised(fieldReply.error)))
      else if fieldReply.value == [] then (t1, Err(HttpRaised(FIELD_NOT_CREATED)))
      else
        var field := fieldReply.value[0];
        if promptData.fieldId != field.id then (t1, Err(HttpRaised(PROMPT_FIELD_MISMATCH)))
        else
          var (t2, promptReply) := PromptInsert(t1, field.id, promptData.promptTemplate, o.promptInsert);
          if promptReply.Err? then (t2, Err(OtherRaised(promptReply.error)))
          else if promptReply.value == [] then Compensate(t2, field.id, o.cleanup, HttpRaised(PROMPT_NOT_CREATED))
          else (t2, Ok(FieldWithPrompts(field, [promptReply.value[0]])))
  }

  /**
   * The same sequence with the compensating delete run on every failure
   * after the field insert, not only when the prompt insert returns no row.
   */
  function CreateFieldStepsCompensated(
    t: Tables, workflowIdText: string, fieldData: FieldCreate, promptData: PromptCreate, o: CreateFieldOutcomes)
    : (r: (Tables, Result<FieldWithPrompts, Raised>))
    ensures CreateFieldChecks(t, workflowIdText, fieldData, o.workflowLookup).Err? ==>
              r == (t, Err(CreateFieldChecks(t, workflowIdText, fieldData, o.workflowLookup).error))
    ensures r.0.workflows == t.workflows
    ensures r.1.Err? ==> r.0.prompts == t.prompts
    ensures r.1.Ok? ==> o.fieldInsert.Inserted? && o.promptInsert.Inserted? && r.1.value.field.id == promptData.fieldId
  {
    match CreateFieldChecks(t, workflowIdText, fieldData, o.workflowLookup)
    case Err(x) => (t, Err(x))
    case Ok(wid) =>
      var (t1, fieldReply) := FieldInsert(t, wid, fieldData.name, fieldData.dataType, o.fieldInsert);
      if fieldReply.Err? then (t1, Err(OtherRaised(fieldReply.error)))
      else if fieldReply.value == [] then (t1, Err(HttpRaised(FIELD_NOT_CREATED)))
      else
        var field := fieldReply.value[0];
        if promptData.fieldId != field.id then Compensate(t1, field.id, o.cleanup, HttpRaised(PROMPT_FIELD_MISMATCH))
        else
          var (t2, promptReply) := PromptInsert(t1, field.id, promptData.promptTemplate, o.promptInsert);
          if promptReply.Err? then Compensate(t2, field.id, o.cleanup, OtherRaised(promptReply.error))
          else if promptReply.value == [] then Compensate(t2, field.id, o.cleanup, HttpRaised(PROMPT_NOT_CREATED))
          else (t2, Ok(FieldWithPrompts(field, [promptReply.value[0]])))
  }

  /** `create_field_with_prompt` as written: the steps, then its exception handler. */
  function CreateFieldEffect(
    t: Tables, workflowIdText: string, fieldData: FieldCreate, promptData: PromptCreate, o: CreateFieldOutcomes)
    : (r: (Tables, Result<FieldWithPrompts, HttpError>))
    ensures r.0.workflows == t.workflows
    ensures r.1.Err? ==> r.0.prompts == t.prompts
    ensures r.1.Err? && r.1.error.status == 409 ==> r.1.error.detail == FIELD_CONFLICT
  {
    var (t1, r) := CreateFieldSteps(t, workflowIdText, fieldData, promptData, o);
    (t1, MapError(r, x => HandleException(x, FIELD_CONFLICT)))
  }

  /** `create_field_with_prompt` with compensation on every failure after the field insert. */
  function CreateFieldEffectCompensated(
    t: Tables, workflowIdText: string, fieldData: FieldCreate, promptData: PromptCreate, o: CreateFieldOutcomes)
    : (r: (Tables, Result<FieldWithPrompts, HttpError>))
    ensures r.0.workflows == t.workflows
    ensures r.1.Err? ==> r.0.prompts == t.prompts
    ensures r.1.Err? && r.1.error.status == 409 ==> r.1.error.detail == FIELD_CONFLICT
  {
    var (t1, r) := CreateFieldStepsCompensated(t, workflowIdText, fieldData, promptData, o);
    (t1, MapError(r, x => HandleException(x, FIELD_CONFLICT)))
  }

  /**
   * Before anything is written: a malformed id is a 400, a raising lookup is
   * classified, a missing workflow is a 404 and a body naming another
   * workflow is a 400; in none of these cases does any table change.
   */
  lemma CreateFieldRejectsBeforeInsert(
    t: Tables, workflowIdText: string, fieldData: FieldCreate, promptData: PromptCreate, o: CreateFieldOutcomes)
    ensures !PassesChecks(t, workflowIdText, fieldData, o.workflowLookup) ==>
              CreateFieldEffect(t, workflowIdText, fieldData, promptData, o).0 == t
    ensures ParseUuid(workflowIdText).None? ==>
              CreateFieldEffect(t, workflowIdText, fieldData, promptData, o).1 == Err(INVALID_WORKFLOW_ID)
    ensures ParseUuid(workflowIdText).Some? && o.workflowLookup.Some? ==>
              CreateFieldEffect(t, workflowIdText, fieldData, promptData, o).1
              == Err(HandleException(OtherRaised(o.workflowLookup.value), FIELD_CONFLICT))
    ensures ParseUuid(workflowIdText).Some? && o.workflowLookup.None?
            && WorkflowsWithId(t.workflows, ParseUuid(workflowIdText).value) == [] ==>
              CreateFieldEffect(t, workflowIdText, fieldData, promptData, o).1 == Err(WORKFLOW_NOT_FOUND)
    ensures ParseUuid(workflowIdText).Some? && o.workflowLookup.None?
            && WorkflowsWithId(t.workflows, ParseUuid(workflowIdText).value) != []
            && fieldData.workflowId != ParseUuid(workflowIdText).value ==>
              CreateFieldEffect(t, workflowIdText, fieldData, promptData, o).1 == Err(FIELD_WORKFLOW_MISMATCH)
  {
  }

  /**
   * Past the checks, a field insert that raises or returns no row writes
   * nothing: a raising insert is classified, a duplicate field name becoming
   * the 409 conflict, and an empty one is "Failed to create field".
   */
  lemma CreateFieldInsertFails(
    t: Tables, workflowIdText: string, fieldData: FieldCreate, promptData: PromptCreate, o: CreateFieldOutcomes)
    requires PassesChecks(t, workflowIdText, fieldData, o.workflowLookup)
    requires !o.fieldInsert.Inserted?
    ensures CreateFieldEffect(t, workflowIdText, fieldData, promptData, o).0 == t
    ensures o.fieldInsert.NoData? ==> CreateFieldEffect(t, workflowIdText, fieldData, promptData, o).1 == Err(FIELD_NOT_CREATED)
    ensures o.fieldInsert.Raises? ==>
              CreateFieldEffect(t, workflowIdText, fieldData, promptData, o).1
              == Err(HandleException(OtherRaised(o.fieldInsert.message), FIELD_CONFLICT))
    ensures o.fieldInsert.Raises? && IsDuplicateKey(o.fieldInsert.message) ==>
              CreateFieldEffect(t, workflowIdText, fieldData, promptData, o).1 == Err(HttpError(409, FIELD_CONFLICT))
  {
  }

  /**
   * The call succeeds exactly when the checks pass, both inserts return a row
   * and the body's prompt names the new field. Then the new field and the new
   * prompt are appended, both are returned, and the field is listed last
   * under its workflow and the prompt last under its field.
   */
  lemma CreateFieldSucceeds(
    t: Tables, workflowIdText: string, fieldData: FieldCreate, promptData: PromptCreate, o: CreateFieldOutcomes)
    ensures var (t', r) := CreateFieldEffect(t, workflowIdText, fieldData, promptData, o);
            r.Ok? <==> PassesChecks(t, workflowIdText, fieldData, o.workflowLookup)
                       && o.fieldInsert.Inserted? && promptData.fieldId == o.fieldInsert.id && o.promptInsert.Inserted?
    ensures var (t', r) := CreateFieldEffect(t, workflowIdText, fieldData, promptData, o);
            r.Ok? ==>
              var wid := fieldData.workflowId;
              var f := FieldSchema(o.fieldInsert.id, wid, fieldData.name, fieldData.dataType, o.fieldInsert.createdAt);
              var p := Prompt(o.promptInsert.id, f.id, promptData.promptTemplate, o.promptInsert.createdAt);
              && r.value == FieldWithPrompts(f, [p])
              && t' == Tables(t.workflows, t.fields + [f], t.prompts + [p])
              && FieldsOf(t'.fields, wid) == FieldsOf(t.fields, wid) + [f]
              && PromptsOf(t'.prompts, f.id) == PromptsOf(t.prompts, f.id) + [p]
  {
    var (t', r) := CreateFieldEffect(t, workflowIdText, fieldData, promptData, o);
    if r.Ok? {
      var wid := fieldData.workflowId;
      var f := FieldSchema(o.fieldInsert.id, wid, fieldData.name, fieldData.dataType, o.fieldInsert.createdAt);
      var p := Prompt(o.promptInsert.id, f.id, promptData.promptTemplate, o.promptInsert.createdAt);
      AppendedFieldIsListed(t.fields, f);
      AppendedPromptIsListed(t.prompts, p);
    }
  }

  /**
   * Once the field is in, a prompt insert that returns no row deletes it
   * again: with a working delete and a fresh field id the tables are as
   * before and the answer is "Failed to create prompt"; a raising delete
   * leaves the field in place and its own exception is what is reported.
   */
  lemma CreateFieldCompensatesMissingPrompt(
    t: Tables, workflowIdText: string, fieldData: FieldCreate, promptData: PromptCreate, o: CreateFieldOutcomes)
    requires PassesChecks(t, workflowIdText, fieldData, o.workflowLookup)
    requires o.fieldInsert.Inserted? && promptData.fieldId == o.fieldInsert.id && o.promptInsert.NoData?
    requires forall g :: g in t.fields ==> g.id != o.fieldInsert.id
    ensures o.cleanup.None? ==>
              CreateFieldEffect(t, workflowIdText, fieldData, promptData, o) == (t, Err(PROMPT_NOT_CREATED))
    ensures o.cleanup.Some? ==>
              var wid := fieldData.workflowId;
              var f := FieldSchema(o.fieldInsert.id, wid, fieldData.name, fieldData.dataType, o.fieldInsert.createdAt);
              CreateFieldEffect(t, workflowIdText, fieldData, promptData, o)
              == (t.(fields := t.fields + [f]), Err(HandleException(OtherRaised(o.cleanup.value), FIELD_CONFLICT)))
  {
    var f := FieldSchema(o.fieldInsert.id, fieldData.workflowId, fieldData.name, fieldData.dataType, o.fieldInsert.createdAt);
    DeletingAppendedField(t.fields, f);
  }

  /**
   * As written, two failures after the field insert leave the new field in
   * the table: a prompt whose field id is not the one the store has just
   * assigned (a 400), and a prompt insert that raises (a 409 or 500).
   */
  lemma CreateFieldLeavesOrphan(
    t: Tables, workflowIdText: string, fieldData: FieldCreate, promptData: PromptCreate, o: CreateFieldOutcomes)
    requires PassesChecks(t, workflowIdText, fieldData, o.workflowLookup)
    requires o.fieldInsert.Inserted?
    ensures var f := FieldSchema(o.fieldInsert.id, fieldData.workflowId, fieldData.name, fieldData.dataType, o.fieldInsert.createdAt);
            promptData.fieldId != o.fieldInsert.id ==>
              CreateFieldEffect(t, workflowIdText, fieldData, promptData, o)
              == (t.(fields := t.fields + [f]), Err(PROMPT_FIELD_MISMATCH))
    ensures var f := FieldSchema(o.fieldInsert.id, fieldData.workflowId, fieldData.name, fieldData.dataType, o.fieldInsert.createdAt);
            promptData.fieldId == o.fieldInsert.id && o.promptInsert.Raises? ==>
              CreateFieldEffect(t, workflowIdText, fieldData, promptData, o)
              == (t.(fields := t.fields + [f]), Err(HandleException(OtherRaised(o.promptInsert.message), FIELD_CONFLICT)))
  {
  }

  /**
   * Corrected, no failed call leaves a field behind: whenever the answer is
   * an error, the compensating delete works and the store's field id was
   * fresh, the tables are exactly as they were.
   */
  lemma CreateFieldCompensatedLeavesNoOrphan(
    t: Tables, workflowIdText: string, fieldData: FieldCreate, promptData: PromptCreate, o: CreateFieldOutcomes)
    requires o.cleanup.None?
    requires o.fieldInsert.Inserted? ==> forall g :: g in t.fields ==> g.id != o.fieldInsert.id
    ensures CreateFieldEffectCompensated(t, workflowIdText, fieldData, promptData, o).1.Err? ==>
              CreateFieldEffectCompensated(t, workflowIdText, fieldData, promptData, o).0 == t
  {
    if PassesChecks(t, workflowIdText, fieldData, o.workflowLookup) && o.fieldInsert.Inserted? {
      var f := FieldSchema(o.fieldInsert.id, fieldData.workflowId, fieldData.name, fieldData.dataType, o.fieldInsert.createdAt);
      DeletingAppendedField(t.fields, f);
    }
  }

  /**
   * The correction changes only failures after the field insert: before it,
   * and on success, both versions give the same tables and the same answer.
   */
  lemma CreateFieldCompensatedAgrees(
    t: Tables, workflowIdText: string, fieldData: FieldCreate, promptData: PromptCreate, o: CreateFieldOutcomes)
    ensures !PassesChecks(t, workflowIdText, fieldData, o.workflowLookup) ==>
              CreateFieldEffectCompensated(t, workflowIdText, fieldData, promptData, o)
              == CreateFieldEffect(t, workflowIdText, fieldData, promptData, o)
    ensures CreateFieldEffect(t, workflowIdText, fieldData, promptData, o).1.Ok? ==>
              CreateFieldEffectCompensated(t, workflowIdText, fieldData, promptData, o)
              == CreateFieldEffect(t, workflowIdText, fieldData, promptData, o)
  {
  }

  /** `create_field_with_prompt` as written, over the store. */
  method CreateFieldWithPrompt(
    db: Database, workflowIdText: string, fieldData: FieldCreate, promptData: PromptCreate, o: CreateFieldOutcomes)
    returns (r: Result<FieldWithPrompts, HttpError>)
    modifies db
    ensures (db.State(), r) == CreateFieldEffect(old(db.State()), workflowIdText, fieldData, promptData, o)
  {
    var parsed := ParseUuid(workflowIdText);
    if parsed.None? {
      return Err(INVALID_WORKFLOW_ID);
    }
    var wid := parsed.value;
    if o.workflowLookup.Some? {
      return Err(HandleException(OtherRaised(o.workflowLookup.value), FIELD_CONFLICT));
    }
    if WorkflowsWithId(db.workflows, wid) == [] {
      return Err(WORKFLOW_NOT_FOUND);
    }
    if fieldData.workflowId != wid {
      return Err(FIELD_WORKFLOW_MISMATCH);
    }
    var fieldReply := db.InsertField(wid, fieldData.name, fieldData.dataType, o.fieldInsert);
    if fieldReply.Err? {
      return Err(HandleException(OtherRaised(fieldReply.error), FIELD_CONFLICT));
    }
    if fieldReply.value == [] {
      return Err(FIELD_NOT_CREATED);
    }
    var field := fieldReply.value[0];
    if promptData.fieldId != field.id {
      return Err(PROMPT_FIELD_MISMATCH);
    }
    var promptReply := db.InsertPrompt(field.id, promptData.promptTemplate, o.promptInsert);
    if promptReply.Err? {
      return Err(HandleException(OtherRaised(promptReply.error), FIELD_CONFLICT));
    }
    if promptReply.value == [] {
      var fault := db.DeleteField(field.id, o.cleanup);
      if fault.Some? {
        return Err(HandleException(OtherRaised(fault.value), FIELD_CONFLICT));
      }
      return Err(PROMPT_NOT_CREATED);
    }
    r := Ok(FieldWithPrompts(field, [promptReply.value[0]]));
  }

  /** `create_field_with_prompt` with compensation on every failure after the field insert, over the store. */
  method CreateFieldWithPromptCompensated(
    db: Database, workflowIdText: string, fieldData: FieldCreate, promptData: PromptCreate, o: CreateFieldOutcomes)
    returns (r: Result<FieldWithPrompts, HttpError>)
    modifies db
    ensures (db.State(), r) == CreateFieldEffectCompensated(old(db.State()), workflowIdText, fieldData, promptData, o)
  {
    var parsed := ParseUuid(workflowIdText);
    if parsed.None? {
      return Err(INVALID_WORKFLOW_ID);
    }
    var wid := parsed.value;
    if o.workflowLookup.Some? {
      return Err(HandleException(OtherRaised(o.workflowLookup.value), FIELD_CONFLICT));
    }
    if WorkflowsWithId(db.workflows, wid) == [] {
      return Err(WORKFLOW_NOT_FOUND);
    }
    if fieldData.workflowId != wid {
      return Err(FIELD_WORKFLOW_MISMATCH);
    }
    var fieldReply := db.InsertField(wid, fieldData.name, fieldData.dataType, o.fieldInsert);
    if fieldReply.Err? {
      return Err(HandleException(OtherRaised(fieldReply.error), FIELD_CONFLICT));
    }
    if fieldReply.value == [] {
      return Err(FIELD_NOT_CREATED);
    }
    var field := fieldReply.value[0];
    var pending: Raised;
    if promptData.fieldId != field.id {
      pending := HttpRaised(PROMPT_FIELD_MISMATCH);
    } else {
      var promptReply := db.InsertPrompt(field.id, promptData.promptTemplate, o.promptInsert);
      if promptReply.Ok? && promptReply.value != [] {
        return Ok(FieldWithPrompts(field, [promptReply.value[0]]));
      }
      pending := if promptReply.Err? then OtherRaised(promptReply.error) else HttpRaised(PROMPT_NOT_CREATED);
    }
    var fault := db.DeleteField(field.id, o.cleanup);
    r := Err(HandleException(if fault.Some? then OtherRaised(fault.value) else pending, FIELD_CONFLICT));
  }

  // ---------------------------------------------------------------------------
  // Reads shared by get_workflow and execute_workflow
  // ---------------------------------------------------------------------------

  /** The position of the first of the first `n` per-field prompt selects that raises, if any does. */
  function FirstFault(prompts: nat -> Option<string>, n: nat): (r: Option<nat>)
    ensures r.None? <==> forall k: nat :: k < n ==> prompts(k).None?
    ensures r.Some? ==> r.value < n && prompts(r.value).Some?
    ensures r.Some? ==> forall k: nat :: k < r.value ==> prompts(k).None?
  {
    if n == 0 then None
    else
      var before := FirstFault(prompts, n - 1);
      if before.Some? then before
      else if prompts(n - 1).Some? then Some(n - 1)
      else None
  }

  /** A select that raises after `i` that did not is the first to raise among any longer prefix. */
  lemma {:induction false} FirstFaultAt(prompts: nat -> Option<string>, i: nat, n: nat)
    requires i < n && FirstFault(prompts, i).None? && prompts(i).Some?
    ensures FirstFault(prompts, n) == Some(i)
    decreases n
  {
    if n > i + 1 {
      FirstFaultAt(prompts, i, n - 1);
    }
  }

  /** The selects before the per-field loop: the path id, the workflow row and the field rows. */
  ghost predicate ReadsWorkflow(db: Database, workflowIdText: string, faults: ReadFaults)
    reads db
  {
    && ParseUuid(workflowIdText).Some?
    && faults.workflow.None?
    && WorkflowsWithId(db.workflows, ParseUuid(workflowIdText).value) != []
    && faults.fields.None?
  }

  // ---------------------------------------------------------------------------
  // get_workflow
  // ---------------------------------------------------------------------------

  /**
   * `get_workflow`: the workflow row, then each of its fields in table order
   * with every prompt stored under that field. A malformed id is a 400 and a
   * missing workflow a 404; a select that raises is a 500 "Database error: ..."
   * (the first one to raise, in the order the selects are made).
   */
  method GetWorkflow(db: Database, workflowIdText: string, faults: ReadFaults)
    returns (r: Result<WorkflowComplete, HttpError>)
    ensures ParseUuid(workflowIdText).None? ==> r == Err(INVALID_WORKFLOW_ID)
    ensures ParseUuid(workflowIdText).Some? && faults.workflow.Some? ==>
              r == Err(HttpError(500, DATABASE_ERROR + faults.workflow.value))
    ensures ParseUuid(workflowIdText).Some? && faults.workflow.None?
            && WorkflowsWithId(db.workflows, ParseUuid(workflowIdText).value) == [] ==>
              r == Err(WORKFLOW_NOT_FOUND)
    ensures ParseUuid(workflowIdText).Some? && faults.workflow.None?
            && WorkflowsWithId(db.workflows, ParseUuid(workflowIdText).value) != [] && faults.fields.Some? ==>
              r == Err(HttpError(500, DATABASE_ERROR + faults.fields.value))
    ensures ReadsWorkflow(db, workflowIdText, faults) ==>
              var fs := FieldsOf(db.fields, ParseUuid(workflowIdText).value);
              var fault := FirstFault(faults.prompts, |fs|);
              fault.Some? ==> r == Err(HttpError(500, DATABASE_ERROR + faults.prompts(fault.value).value))
    ensures r.Ok? <==>
              ReadsWorkflow(db, workflowIdText, faults)
              && FirstFault(faults.prompts, |FieldsOf(db.fields, ParseUuid(workflowIdText).value)|).None?
    ensures r.Ok? ==>
              var wid := ParseUuid(workflowIdText).value;
              var fs := FieldsOf(db.fields, wid);
              && r.value.workflow == WorkflowsWithId(db.workflows, wid)[0]
              && |r.value.fields| == |fs|
              && forall k :: 0 <= k < |fs| ==>
                   r.value.fields[k] == FieldWithPrompts(fs[k], PromptsOf(db.prompts, fs[k].id))
  {
    var parsed := ParseUuid(workflowIdText);
    if parsed.None? {
      return Err(INVALID_WORKFLOW_ID);
    }
    var wid := parsed.value;
    if faults.workflow.Some? {
      return Err(HandleWithoutConflict(OtherRaised(faults.workflow.value), DATABASE_ERROR));
    }
    var workflowRows := WorkflowsWithId(db.workflows, wid);
    if workflowRows == [] {
      return Err(WORKFLOW_NOT_FOUND);
    }
    if faults.fields.Some? {
      return Err(HandleWithoutConflict(OtherRaised(faults.fields.value), DATABASE_ERROR));
    }
    var fs := FieldsOf(db.fields, wid);
    var fault, assembled := AssembleFields(db, fs, faults.prompts);
    if fault.Some? {
      return Err(HandleWithoutConflict(OtherRaised(fault.value), DATABASE_ERROR));
    }
    r := Ok(WorkflowComplete(workflowRows[0], assembled));
  }

  /**
   * The loop of `get_workflow` over the fields: stops at the first prompt
   * select that raises; otherwise pairs every field, in order, with the
   * prompts stored under it.
   */
  method AssembleFields(db: Database, fs: seq<FieldSchema>, promptFaults: nat -> Option<string>)
    returns (fault: Option<string>, assembled: seq<FieldWithPrompts>)
    ensures fault.None? <==> FirstFault(promptFaults, |fs|).None?
    ensures fault.Some? ==> fault == promptFaults(FirstFault(promptFaults, |fs|).value)
    ensures fault.None? ==> |assembled| == |fs|
    ensures fault.None? ==>
              forall k :: 0 <= k < |fs| ==> assembled[k] == FieldWithPrompts(fs[k], PromptsOf(db.prompts, fs[k].id))
  {
    assembled := [];
    var i := 0;
    while i < |fs|
      invariant 0 <= i <= |fs|
      invariant |assembled| == i
      invariant forall k :: 0 <= k < i ==> assembled[k] == FieldWithPrompts(fs[k], PromptsOf(db.prompts, fs[k].id))
      invariant FirstFault(promptFaults, i).None?
    {
      fault := promptFaults(i);
      if fault.Some? {
        FirstFaultAt(promptFaults, i, |fs|);
        return;
      }
      assembled := assembled + [FieldWithPrompts(fs[i], PromptsOf(db.prompts, fs[i].id))];
      i := i + 1;
    }
    fault := None;
  }

  // ---------------------------------------------------------------------------
  // execute_workflow
  // ---------------------------------------------------------------------------

  /** The report `execute_workflow` builds for one field. */
  function FieldOutcome(
    field: FieldSchema, prompts: seq<Prompt>, input: string, key: Option<string>, api: ChatRequest -> ChatReply)
    : FieldExecutionResult
  {
    if prompts == [] then
      FieldExecutionResult(field.id, field.name, field.dataType, "", "", false, Some(NO_PROMPTS))
    else
      var template := prompts[0].promptTemplate;
      match ExecutePrompt(key, template, input, api)
      case Ok(text) => FieldExecutionResult(field.id, field.name, field.dataType, template, text, true, None)
      case Err(m) => FieldExecutionResult(field.id, field.name, field.dataType, template, "", false, Some(m))
  }

  /**
   * What a field's report says: the field's id, name and data type are
   * copied. With no prompts, it is a failure saying so, with empty template
   * and response. Otherwise the first prompt's template is run on the user
   * input and the outcome of `execute_prompt` is recorded: its text on
   * success, its error message on failure.
   */
  lemma FieldOutcomeReports(
    field: FieldSchema, prompts: seq<Prompt>, input: string, key: Option<string>, api: ChatRequest -> ChatReply)
    ensures var r := FieldOutcome(field, prompts, input, key, api);
            r.fieldId == field.id && r.fieldName == field.name && r.dataType == field.dataType
    ensures var r := FieldOutcome(field, prompts, input, key, api);
            r.executionSuccess <==> prompts != [] && ExecutePrompt(key, prompts[0].promptTemplate, input, api).Ok?
    ensures var r := FieldOutcome(field, prompts, input, key, api);
            r.executionSuccess <==> r.errorMessage.None?
    ensures var r := FieldOutcome(field, prompts, input, key, api);
            prompts == [] ==> r.promptTemplate == "" && r.aiResponse == "" && r.errorMessage == Some(NO_PROMPTS)
    ensures var r := FieldOutcome(field, prompts, input, key, api);
            prompts != [] ==>
              var reply := ExecutePrompt(key, prompts[0].promptTemplate, input, api);
              && r.promptTemplate == prompts[0].promptTemplate
              && (reply.Ok? ==> r.aiResponse == reply.value && r.errorMessage == None)
              && (reply.Err? ==> r.aiResponse == "" && r.errorMessage == Some(reply.error))
  {
  }

  /** The number of successful field runs in a report. */
  function Successes(rs: seq<FieldExecutionResult>): (n: nat)
    ensures n <= |rs|
  {
    if rs == [] then 0
    else Successes(rs[..|rs| - 1]) + (if rs[|rs| - 1].executionSuccess then 1 else 0)
  }

  /** No successes exactly when every field run failed. */
  lemma {:induction false} NoSuccesses(rs: seq<FieldExecutionResult>)
    ensures Successes(rs) == 0 <==> forall k :: 0 <= k < |rs| ==> !rs[k].executionSuccess
  {
    if rs != [] {
      var init := rs[..|rs| - 1];
      NoSuccesses(init);
      assert forall k :: 0 <= k < |init| ==> init[k] == rs[k];
    }
  }

  /** As many successes as fields exactly when every field run succeeded. */
  lemma {:induction false} AllSuccesses(rs: seq<FieldExecutionResult>)
    ensures Successes(rs) == |rs| <==> forall k :: 0 <= k < |rs| ==> rs[k].executionSuccess
  {
    if rs != [] {
      var init := rs[..|rs| - 1];
      AllSuccesses(init);
      assert forall k :: 0 <= k < |init| ==> init[k] == rs[k];
    }
  }

  /** The reports of `execute_workflow` for the fields `fs`, the k-th field's call going to `api(k)`. */
  function Reports(
    prompts: seq<Prompt>, fs: seq<FieldSchema>, input: string, key: Option<string>,
    api: nat -> (ChatRequest -> ChatReply))
    : (rs: seq<FieldExecutionResult>)
    ensures |rs| == |fs|
  {
    if fs == [] then []
    else
      var last := |fs| - 1;
      Reports(prompts, fs[..last], input, key, api) + [FieldOutcome(fs[last], PromptsOf(prompts, fs[last].id), input, key, api(last))]
  }

  /** The reports for one more field are the earlier ones followed by that field's. */
  lemma ReportsStep(
    prompts: seq<Prompt>, fs: seq<FieldSchema>, input: string, key: Option<string>,
    api: nat -> (ChatRequest -> ChatReply), i: nat)
    requires i < |fs|
    ensures Reports(prompts, fs[..i + 1], input, key, api)
         == Reports(prompts, fs[..i], input, key, api) + [FieldOutcome(fs[i], PromptsOf(prompts, fs[i].id), input, key, api(i))]
  {
    assert fs[..i + 1][..i] == fs[..i];
  }

  /** The count for one more report goes up by one exactly when that report is a success. */
  lemma SuccessesStep(rs: seq<FieldExecutionResult>, x: FieldExecutionResult)
    ensures Successes(rs + [x]) == Successes(rs) + (if x.executionSuccess then 1 else 0)
  {
    assert (rs + [x])[..|rs|] == rs;
  }

  /** Each report is the outcome of its own field against its own prompts and its own call. */
  lemma {:induction false} ReportsAt(
    prompts: seq<Prompt>, fs: seq<FieldSchema>, input: string, key: Option<string>,
    api: nat -> (ChatRequest -> ChatReply), k: nat)
    requires k < |fs|
    ensures Reports(prompts, fs, input, key, api)[k] == FieldOutcome(fs[k], PromptsOf(prompts, fs[k].id), input, key, api(k))
  {
    var last := |fs| - 1;
    if k < last {
      ReportsAt(prompts, fs[..last], input, key, api, k);
    }
  }

  /** With the key missing, no field run succeeds. */
  lemma MissingKeyFailsEveryField(
    prompts: seq<Prompt>, fs: seq<FieldSchema>, input: string, key: Option<string>,
    api: nat -> (ChatRequest -> ChatReply))
    requires KeyMissing(key)
    ensures Successes(Reports(prompts, fs, input, key, api)) == 0
  {
    var rs := Reports(prompts, fs, input, key, api);
    forall k | 0 <= k < |rs|
      ensures !rs[k].executionSuccess
    {
      ReportsAt(prompts, fs, input, key, api, k);
      FieldOutcomeReports(fs[k], PromptsOf(prompts, fs[k].id), input, key, api(k));
    }
    NoSuccesses(rs);
  }

  /**
   * `execute_workflow`: every field of the workflow, in table order, is run
   * against its first prompt, the k-th field's call going to `api(k)`, and
   * the report counts what succeeded and what failed. A malformed id is a
   * 400, a missing workflow or a workflow with no fields a 404; a select that
   * raises is a 500 "Unexpected error during workflow execution: ...". A
   * per-field failure of the model call (a missing key included) is recorded
   * in that field's report and does not stop the run.
   */
  method ExecuteWorkflow(
    db: Database, workflowIdText: string, request: WorkflowExecutionRequest, key: Option<string>,
    api: nat -> (ChatRequest -> ChatReply), faults: ReadFaults, now: Timestamp)
    returns (r: Result<WorkflowExecutionResponse, HttpError>)
    ensures ParseUuid(workflowIdText).None? ==> r == Err(INVALID_WORKFLOW_ID)
    ensures ParseUuid(workflowIdText).Some? && faults.workflow.Some? ==>
              r == Err(HttpError(500, EXECUTION_ERROR + faults.workflow.value))
    ensures ParseUuid(workflowIdText).Some? && faults.workflow.None?
            && WorkflowsWithId(db.workflows, ParseUuid(workflowIdText).value) == [] ==>
              r == Err(WORKFLOW_NOT_FOUND)
    ensures ParseUuid(workflowIdText).Some? && faults.workflow.None?
            && WorkflowsWithId(db.workflows, ParseUuid(workflowIdText).value) != [] && faults.fields.Some? ==>
              r == Err(HttpError(500, EXECUTION_ERROR + faults.fields.value))
    ensures ReadsWorkflow(db, workflowIdText, faults) && FieldsOf(db.fields, ParseUuid(workflowIdText).value) == [] ==>
              r == Err(NO_FIELDS)
    ensures ReadsWorkflow(db, workflowIdText, faults) ==>
              var fs := FieldsOf(db.fields, ParseUuid(workflowIdText).value);
              var fault := FirstFault(faults.prompts, |fs|);
              fs != [] && fault.Some? ==> r == Err(HttpError(500, EXECUTION_ERROR + faults.prompts(fault.value).value))
    ensures r.Ok? <==>
              && ReadsWorkflow(db, workflowIdText, faults)
              && FieldsOf(db.fields, ParseUuid(workflowIdText).value) != []
              && FirstFault(faults.prompts, |FieldsOf(db.fields, ParseUuid(workflowIdText).value)|).None?
    ensures r.Ok? ==>
              var wid := ParseUuid(workflowIdText).value;
              var w := WorkflowsWithId(db.workflows, wid)[0];
              var fs := FieldsOf(db.fields, wid);
              && r.value.workflowId == w.id && r.value.workflowName == w.name
              && r.value.userInput == request.userInput
              && r.value.executionTimestamp == now
              && r.value.totalFields == |fs|
              && r.value.fieldResults == Reports(db.prompts, fs, request.userInput, key, api)
              && r.value.successfulExecutions == Successes(r.value.fieldResults)
              && r.value.successfulExecutions + r.value.failedExecutions == r.value.totalFields
    ensures r.Ok? && KeyMissing(key) ==>
              r.value.successfulExecutions == 0 && r.value.failedExecutions == r.value.totalFields
  {
    var parsed := ParseUuid(workflowIdText);
    if parsed.None? {
      return Err(INVALID_WORKFLOW_ID);
    }
    var wid := parsed.value;
    if faults.workflow.Some? {
      return Err(HandleWithoutConflict(OtherRaised(faults.workflow.value), EXECUTION_ERROR));
    }
    var workflowRows := WorkflowsWithId(db.workflows, wid);
    if workflowRows == [] {
      return Err(WORKFLOW_NOT_FOUND);
    }
    var workflow := workflowRows[0];
    if faults.fields.Some? {
      return Err(HandleWithoutConflict(OtherRaised(faults.fields.value), EXECUTION_ERROR));
    }
    var fs := FieldsOf(db.fields, wid);
    if fs == [] {
      return Err(NO_FIELDS);
    }
    var fault, results, successful, failed := RunFields(db.prompts, fs, request.userInput, key, api, faults.prompts);
    if fault.Some? {
      return Err(HandleWithoutConflict(OtherRaised(fault.value), EXECUTION_ERROR));
    }
    if KeyMissing(key) {
      MissingKeyFailsEveryField(db.prompts, fs, request.userInput, key, api);
    }
    r := Ok(WorkflowExecutionResponse(workflow.id, workflow.name, request.userInput, |fs|, successful, failed, results, now));
  }

  /**
   * One pass of the loop body of `execute_workflow` for the field at
   * position `i`: a field without prompts is reported as such, otherwise its
   * first prompt is run; the report is appended and the matching counter
   * goes up by one.
   */
  method Tally(
    table: seq<Prompt>, fs: seq<FieldSchema>, i: nat, input: string, key: Option<string>,
    api: nat -> (ChatRequest -> ChatReply), results: seq<FieldExecutionResult>, successful: nat, failed: nat)
    returns (results': seq<FieldExecutionResult>, successful': nat, failed': nat)
    requires i < |fs|
    requires results == Reports(table, fs[..i], input, key, api)
    requires successful == Successes(results) && successful + failed == i
    ensures results' == Reports(table, fs[..i + 1], input, key, api)
    ensures successful' == Successes(results') && successful' + failed' == i + 1
  {
    var field := fs[i];
    var prompts := PromptsOf(table, field.id);
    var outcome: FieldExecutionResult;
    successful', failed' := successful, failed;
    if prompts == [] {
      outcome := FieldExecutionResult(field.id, field.name, field.dataType, "", "", false, Some(NO_PROMPTS));
      failed' := failed + 1;
    } else {
      var template := prompts[0].promptTemplate;
      var reply := ExecutePrompt(key, template, input, api(i));
      if reply.Ok? {
        outcome := FieldExecutionResult(field.id, field.name, field.dataType, template, reply.value, true, None);
        successful' := successful + 1;
      } else {
        outcome := FieldExecutionResult(field.id, field.name, field.dataType, template, "", false, Some(reply.error));
        failed' := failed + 1;
      }
    }
    assert outcome == FieldOutcome(field, prompts, input, key, api(i));
    ReportsStep(table, fs, input, key, api, i);
    SuccessesStep(results, outcome);
    results' := results + [outcome];
  }

  /**
   * The loop of `execute_workflow` over the fields: stops at the first prompt
   * select that raises; otherwise reports every field and counts the
   * successes and the failures.
   */
  method RunFields(
    table: seq<Prompt>, fs: seq<FieldSchema>, input: string, key: Option<string>,
    api: nat -> (ChatRequest -> ChatReply), promptFaults: nat -> Option<string>)
    returns (fault: Option<string>, results: seq<FieldExecutionResult>, successful: nat, failed: nat)
    ensures fault.None? <==> FirstFault(promptFaults, |fs|).None?
    ensures fault.Some? ==> fault == promptFaults(FirstFault(promptFaults, |fs|).value)
    ensures fault.None? ==> results == Reports(table, fs, input, key, api)
    ensures fault.None? ==> successful == Successes(results) && successful + failed == |fs|
  {
    results := [];
    successful := 0;
    failed := 0;
    var i := 0;
    while i < |fs|
      invariant 0 <= i <= |fs|
      invariant results == Reports(table, fs[..i], input, key, api)
      invariant successful == Successes(results) && successful + failed == i
      invariant FirstFault(promptFaults, i).None?
    {
      fault := promptFaults(i);
      if fault.Some? {
        FirstFaultAt(promptFaults, i, |fs|);
        return;
      }
      results, successful, failed := Tally(table, fs, i, input, key, api, results, successful, failed);
      i := i + 1;
    }
    assert fs[..i] == fs;
    fault := None;
  }

  /**
   * With a key present, a workflow all of whose fields have a prompt and
   * whose every model call answers with content reports every field as
   * successful.
   */
  lemma EverythingAnswered(
    prompts: seq<Prompt>, fs: seq<FieldSchema>, input: string, key: Option<string>,
    api: nat -> (ChatRequest -> ChatReply))
    requires !KeyMissing(key)
    requires forall k :: 0 <= k < |fs| ==> PromptsOf(prompts, fs[k].id) != []
    requires forall k :: 0 <= k < |fs| ==>
               var reply := api(k)(PromptRequest(DEFAULT_SYSTEM_MESSAGE,
                                                CombinePrompt(PromptsOf(prompts, fs[k].id)[0].promptTemplate, input)));
               reply.Completion? && |reply.choices| > 0 && reply.choices[0].Some?
    ensures Successes(Reports(prompts, fs, input, key, api)) == |fs|
  {
    var rs := Reports(prompts, fs, input, key, api);
    forall k | 0 <= k < |rs|
      ensures rs[k].executionSuccess
    {
      ReportsAt(prompts, fs, input, key, api, k);
      FieldOutcomeReports(fs[k], PromptsOf(prompts, fs[k].id), input, key, api(k));
    }
    AllSuccesses(rs);
  }
}
