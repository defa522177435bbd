/**
 * The request and response shapes of the backend and the validators that
 * normalise incoming text: every required text is stripped and rejected when
 * nothing is left, and a field's data type must be one of seven fixed tags.
 * The update shapes let a missing value (`None`) through untouched.
 */
module Models {
  import opened Wrappers
  import opened Text
  import opened Uuids

  /** A server-assigned creation or completion time; its internals do not matter here. */
  type Timestamp = int

  const WORKFLOW_NAME_EMPTY := "Workflow name cannot be empty"
  const FIELD_NAME_EMPTY := "Field name cannot be empty"
  const PROMPT_TEMPLATE_EMPTY := "Prompt template cannot be empty"
  const USER_INPUT_EMPTY := "User input cannot be empty"

  const DATA_TYPES: seq<string> := ["text", "number", "boolean", "date", "email", "url", "json"]
  const DATA_TYPE_INVALID := "Data type must be one of: " + Join(", ", DATA_TYPES)

  // Create and update payloads, as the handlers receive them once validated.

  datatype WorkflowCreate = WorkflowCreate(name: string)
  datatype FieldCreate = FieldCreate(workflowId: Uuid, name: string, dataType: string)
  datatype PromptCreate = PromptCreate(fieldId: Uuid, promptTemplate: string)
  datatype WorkflowUpdate = WorkflowUpdate(name: Option<string>)
  datatype FieldUpdate = FieldUpdate(name: Option<string>, dataType: Option<string>)
  datatype PromptUpdate = PromptUpdate(promptTemplate: Option<string>)
  datatype WorkflowExecutionRequest = WorkflowExecutionRequest(userInput: string)

  // Records as stored and returned.

  datatype Workflow = Workflow(id: Uuid, name: string, createdAt: Timestamp)
  datatype FieldSchema = FieldSchema(id: Uuid, workflowId: Uuid, name: string, dataType: string, createdAt: Timestamp)
  datatype Prompt = Prompt(id: Uuid, fieldId: Uuid, promptTemplate: string, createdAt: Timestamp)
  datatype FieldWithPrompts = FieldWithPrompts(field: FieldSchema, prompts: seq<Prompt>)
  datatype WorkflowComplete = WorkflowComplete(workflow: Workflow, fields: seq<FieldWithPrompts>)

  // Execution report.

  datatype FieldExecutionResult = FieldExecutionResult(
    fieldId: Uuid,
    fieldName: string,
    dataType: string,
    promptTemplate: string,
    aiResponse: string,
    executionSuccess: bool,
    errorMessage: Option<string>)

  datatype WorkflowExecutionResponse = WorkflowExecutionResponse(
    workflowId: Uuid,
    workflowName: string,
    userInput: string,
    totalFields: int,
    successfulExecutions: int,
    failedExecutions: int,
    fieldResults: seq<FieldExecutionResult>,
    executionTimestamp: Timestamp)

  /**
   * The shape shared by every required-text validator: reject a blank value
   * with `message`, otherwise hand back the value stripped, which is then
   * non-empty and trimmed.
   */
  function NonBlank(v: string, message: string): (r: Result<string, string>)
    ensures r.Err? <==> IsBlank(v)
    ensures r.Err? ==> r.error == message
    ensures r.Ok? ==> r.value == Strip(v) && r.value != [] && IsTrimmed(r.value)
  {
    if Strip(v) == [] then Err(message) else Ok(Strip(v))
  }

  /** An accepted value is a fixed point: validating it again accepts it unchanged. */
  lemma NonBlankIdempotent(v: string, message: string)
    requires NonBlank(v, message).Ok?
    ensures NonBlank(NonBlank(v, message).value, message) == NonBlank(v, message)
  {
    StripIdempotent(v);
  }

  /** An accepted value in a `Some`, an error kept as it is. */
  function LiftSome(r: Result<string, string>): Result<Option<string>, string>
  {
    match r
    case Ok(x) => Ok(Some(x))
    case Err(e) => Err(e)
  }

  /**
   * The update-validator shape: a present value that is blank is rejected;
   * a present non-empty value is stripped; anything else is returned as it is.
   * On `None` it accepts `None`; on a present value it agrees with `NonBlank`.
   */
  function OptionalNonBlank(v: Option<string>, message: string): (r: Result<Option<string>, string>)
    ensures v.None? ==> r == Ok(None)
    ensures v.Some? ==> r == LiftSome(NonBlank(v.value, message))
  {
    if v.Some? && Strip(v.value) == [] then Err(message)
    else Ok(if v.Some? && v.value != "" then Some(Strip(v.value)) else v)
  }

  /** `WorkflowCreate.validate_name`. */
  function ValidateWorkflowName(v: string): (r: Result<string, string>)
    ensures r == if IsBlank(v) then Err(WORKFLOW_NAME_EMPTY) else Ok(Strip(v))
  {
    NonBlank(v, WORKFLOW_NAME_EMPTY)
  }

  /** `FieldCreate.validate_name`. */
  function ValidateFieldName(v: string): (r: Result<string, string>)
    ensures r == if IsBlank(v) then Err(FIELD_NAME_EMPTY) else Ok(Strip(v))
  {
    NonBlank(v, FIELD_NAME_EMPTY)
  }

  /** `PromptCreate.validate_prompt_template`. */
  function ValidatePromptTemplate(v: string): (r: Result<string, string>)
    ensures r == if IsBlank(v) then Err(PROMPT_TEMPLATE_EMPTY) else Ok(Strip(v))
  {
    NonBlank(v, PROMPT_TEMPLATE_EMPTY)
  }

  /** `WorkflowExecutionRequest.validate_user_input`. */
  function ValidateUserInput(v: string): (r: Result<string, string>)
    ensures r == if IsBlank(v) then Err(USER_INPUT_EMPTY) else Ok(Strip(v))
  {
    NonBlank(v, USER_INPUT_EMPTY)
  }

  /**
   * `FieldCreate.validate_data_type`: accepted exactly when the text is one of
   * the seven tags, character for character (no trimming, no case folding),
   * and then returned unchanged.
   */
  function ValidateDataType(v: string): (r: Result<string, string>)
    ensures r.Ok? <==> v == "text" || v == "number" || v == "boolean" || v == "date"
                       || v == "email" || v == "url" || v == "json"
    ensures r.Ok? ==> r.value == v
    ensures r.Err? ==> r.error == DATA_TYPE_INVALID
  {
    if v in DATA_TYPES then Ok(v) else Err(DATA_TYPE_INVALID)
  }

  /** `WorkflowUpdate.validate_name`. */
  function ValidateWorkflowNameUpdate(v: Option<string>): (r: Result<Option<string>, string>)
    ensures v.None? ==> r == Ok(None)
    ensures v.Some? ==> r == LiftSome(ValidateWorkflowName(v.value))
  {
    OptionalNonBlank(v, WORKFLOW_NAME_EMPTY)
  }

  /** `FieldUpdate.validate_name`. */
  function ValidateFieldNameUpdate(v: Option<string>): (r: Result<Option<string>, string>)
    ensures v.None? ==> r == Ok(None)
    ensures v.Some? ==> r == LiftSome(ValidateFieldName(v.value))
  {
    OptionalNonBlank(v, FIELD_NAME_EMPTY)
  }

  /** `PromptUpdate.validate_prompt_template`. */
  function ValidatePromptTemplateUpdate(v: Option<string>): (r: Result<Option<string>, string>)
    ensures v.None? ==> r == Ok(None)
    ensures v.Some? ==> r == LiftSome(ValidatePromptTemplate(v.value))
  {
    OptionalNonBlank(v, PROMPT_TEMPLATE_EMPTY)
  }

  /** `FieldUpdate.validate_data_type`. */
  function ValidateDataTypeUpdate(v: Option<string>): (r: Result<Option<string>, string>)
    ensures v.None? ==> r == Ok(None)
    ensures v.Some? ==> r == LiftSome(ValidateDataType(v.value))
  {
    if v.Some? && v.value !in DATA_TYPES then Err(DATA_TYPE_INVALID) else Ok(v)
  }

  /** The messages a validator contributes to a validation error: none when it accepts. */
  function Messages<T>(r: Result<T, string>): seq<string>
  {
    if r.Err? then [r.error] else []
  }

  /**
   * Building a `FieldCreate` from a body: both validators run, and a rejection
   * lists every failing validator's message in the order the fields are
   * declared (name, then data type).
   */
  function ParseFieldCreate(workflowId: Uuid, name: string, dataType: string): (r: Result<FieldCreate, seq<string>>)
    ensures r.Ok? <==> !IsBlank(name) && dataType in DATA_TYPES
    ensures r.Ok? ==> r.value == FieldCreate(workflowId, Strip(name), dataType)
    ensures r.Err? ==> r.error == Messages(ValidateFieldName(name)) + Messages(ValidateDataType(dataType))
    ensures r.Err? ==> 1 <= |r.error| <= 2
  {
    var n := ValidateFieldName(name);
    var d := ValidateDataType(dataType);
    if n.Ok? && d.Ok? then Ok(FieldCreate(workflowId, n.value, d.value))
    else Err(Messages(n) + Messages(d))
  }

  /** Building a `FieldUpdate`: the same, with absent values accepted as absent. */
  function ParseFieldUpdate(name: Option<string>, dataType: Option<string>): (r: Result<FieldUpdate, seq<string>>)
    ensures name.None? && dataType.None? ==> r == Ok(FieldUpdate(None, None))
    ensures r.Ok? <==> (name.None? || !IsBlank(name.value)) && (dataType.None? || dataType.value in DATA_TYPES)
    ensures r.Ok? ==> r.value.dataType == dataType
    ensures r.Ok? ==> r.value.name == (if name.Some? then Some(Strip(name.value)) else None)
    ensures r.Err? ==> r.error == Messages(ValidateFieldNameUpdate(name)) + Messages(ValidateDataTypeUpdate(dataType))
    ensures r.Err? ==> 1 <= |r.error| <= 2
  {
    var n := ValidateFieldNameUpdate(name);
    var d := ValidateDataTypeUpdate(dataType);
    if n.Ok? && d.Ok? then Ok(FieldUpdate(n.value, d.value))
    else Err(Messages(n) + Messages(d))
  }
}
