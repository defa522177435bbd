# AI workflow backend: a Dafny model

The backend manages **workflows**. A workflow is a named collection of
**fields**. Each field has a data type and zero or more **prompts**, which are
text templates for a language model. A field gets its prompt when it is
created, but can end up with none. Executing a workflow runs every field's
first prompt against one piece of user input and collects the answers into a
report. This project models the part of the backend that holds the logic:

- **models.py**, the request validators. Each required text is stripped and
  rejected when blank. A data type is accepted only when it is one of seven
  exact tags. The update variants let an absent value through.
- **services.py**, prompt assembly. It builds the user message
  `template + "\n\nUser Input: " + input` and chooses the system message. It
  refuses to run without an API key and reads the model's reply back,
  stripped.
- **main.py**, four request handlers:
  - `create_workflow` runs an insert, then maps a duplicate-key error to 409.
  - `get_workflow` assembles the workflow, its fields and each field's prompts.
  - `create_field_with_prompt` checks its inputs, inserts the field, inserts
    the prompt and deletes the field again if the prompt insert comes back
    empty.
  - `execute_workflow` is the loop over the fields. It keeps one report per
    field and counts successes and failures.

The hosted database becomes an in-memory store (`Store.Database`). It holds the
three tables as sequences of rows in insertion order, and a select becomes a
filter. Everything the outside world decides is an explicit parameter of the
operation that needs it:

| outside world | parameter |
|---|---|
| the id and creation time the store assigns | `InsertOutcome` |
| an insert that comes back empty or raises | `InsertOutcome` |
| a select that raises | `ReadFaults` |
| the workflow lookup of `create_field_with_prompt` raising | `CreateFieldOutcomes.workflowLookup` |
| the compensating delete raising | `CreateFieldOutcomes.cleanup` |
| the API key in the environment | `key` |
| the chat-completions service (the k-th field's call goes to `api(k)`) | `api` |
| the current time | `now` |

The handlers that change the store are methods that take the `Database`. Each one is tied
to a pure effect on the tables (`CreateWorkflowEffect`, `CreateFieldEffect`),
and the lemmas are stated about that effect. The read-only handlers
(`GetWorkflow`, `ExecuteWorkflow`) are methods whose postconditions state the
whole answer. Their loops over the fields are the methods `AssembleFields` and
`RunFields`, and one pass of the execution loop is `Tally`.

Files:

- `wrappers.dfy`: `Option` and `Result`.
- `text.dfy`: the Python string builtins the code uses.
- `uuids.dfy`: identifiers and `uuid.UUID` parsing.
- `models.dfy`: records and validators.
- `services.dfy`: prompt execution.
- `store.dfy`: the store.
- `api.dfy`: the handlers.

## Model

| member | source | states |
|---|---|---|
| Text.IsSpace | models.py:22-24 | the whitespace set of `str.isspace`, which `strip()` removes: the controls 9-13 and 28-31, the space, U+0085, U+00A0, U+1680, U+2000-U+200A, U+2028, U+2029, U+202F, U+205F and U+3000 |
| Text.Strip | models.py:22-24 | `strip()` gives the empty string exactly when the text is all whitespace; the result has no whitespace at either end and is what lies between the whitespace prefix and the whitespace suffix |
| Text.StripPadded | models.py:24 | stripping a trimmed core padded with whitespace on both sides gives back exactly that core |
| Text.StripIdempotent | models.py:24 | stripping a stripped value changes nothing |
| Text.Lower | main.py:57 | `lower()` keeps the length and lowers each character in place |
| Text.Contains | main.py:57 | the substring test `in` holds exactly when the pattern occurs at some position |
| Text.ContainsLower | main.py:57 | a pattern found in a message is still found after both are lowered |
| Uuids.ParseUuid | main.py:75-81 | a path id is accepted exactly when, with its hyphens removed, it is 32 hex digits; the identifier is those digits in lower case |
| Uuids.FormatUuid | main.py:84 | `str(uuid)` is 36 characters: the identifier's own lower-case digits in order, in groups of 8, 4, 4, 4 and 12, with hyphens exactly at positions 8, 13, 18 and 23 |
| Uuids.ParseFormatted | main.py:84 | the printed form of an identifier parses back to that identifier |
| Models.NonBlank | models.py:20-24 | rejected with the given message exactly when blank; an accepted value is the stripped text, non-empty and trimmed |
| Models.NonBlankIdempotent | models.py:24 | validating an accepted value again accepts it unchanged |
| Models.OptionalNonBlank | models.py:106-110 | an absent value is accepted as absent; a present one is treated exactly like the create validator |
| Models.ValidateWorkflowName | models.py:20-24 | blank names are rejected with "Workflow name cannot be empty", others are stripped |
| Models.ValidateFieldName | models.py:33-37 | blank names are rejected with "Field name cannot be empty", others are stripped |
| Models.ValidateDataType | models.py:39-44 | accepted exactly when equal to one of text, number, boolean, date, email, url, json; returned unchanged; the error lists the seven tags joined by ", " |
| Models.ValidatePromptTemplate | models.py:52-56 | blank templates are rejected with "Prompt template cannot be empty", others are stripped |
| Models.ValidateWorkflowNameUpdate | models.py:106-110 | None passes; a present name is validated as on create |
| Models.ValidateFieldNameUpdate | models.py:118-122 | None passes; a present name is validated as on create |
| Models.ValidateDataTypeUpdate | models.py:124-130 | None passes; a present data type is validated as on create |
| Models.ValidatePromptTemplateUpdate | models.py:137-141 | None passes; a present template is validated as on create |
| Models.ValidateUserInput | models.py:171-175 | blank input is rejected with "User input cannot be empty", other input is stripped |
| Models.ParseFieldCreate | models.py:27-44 | a body is accepted exactly when the name is not blank and the data type is a tag; a rejection lists each failing validator's message in declaration order |
| Models.ParseFieldUpdate | models.py:113-130 | absent values are accepted; present ones are validated as on create; a rejection lists the name validator's message and then the data-type validator's, whichever fail, so one or two messages |
| Services.CombinePrompt | services.py:36 | the user message is the template, then "\n\nUser Input: ", then the input, and nothing else |
| Services.CombinePromptInjective | services.py:36 | the user message determines the template and the input once one of their lengths is fixed |
| Services.SystemContent | services.py:96 | a non-empty custom system message is used as given; None or "" falls back to the fixed default |
| Services.ReadReplyAsWritten | services.py:57-63 | the reply as the code reads it: an API error leaves as the TypeError of the failed re-raise; every other reply as `ReadReply` reads it |
| Services.ApiErrorRebuildLosesMessage | services.py:60-61 | as written, every API error yields the same TypeError text, never the intended "OpenAI API error: " text, which keeps the service's message apart; every other reply is read as intended |
| Services.ReadReply | services.py:57-63 | success exactly when the first choice has content, and then it is that content stripped; API errors and other errors get their own prefixes, no choice and null content included |
| Services.ExecutePrompt | services.py:16-63 | with no key (unset or empty), fails with the key message and makes no call; otherwise sends the fixed system message and the combined prompt and reads the reply |
| Services.ExecutePromptWithCustomParams | services.py:66-123 | the same guard and combined prompt, with the system message chosen by `SystemContent` |
| Services.CustomWithoutSystemMessageIsPlain | services.py:96 | with no usable custom system message, both entry points give the same result |
| Services.TestOpenAIConnection | services.py:126-148 | false without a key; otherwise true exactly when the probe's first choice has content |
| Store.Filter | main.py:84 | a select returns exactly the matching rows, and never more rows than the table holds |
| Store.FilterCounts | main.py:84 | a select keeps each matching row as many times as the table holds it, and no other row |
| Store.FilterAppend | main.py:173-177 | a row appended to a table is selected after every earlier match |
| Store.WorkflowsWithId | main.py:84 | the workflow select returns exactly the rows with that id |
| Store.FieldsOf | main.py:95 | the field select returns exactly the workflow's fields |
| Store.PromptsOf | main.py:100 | the prompt select returns exactly the field's prompts |
| Store.WithoutField | main.py:203 | after the delete, the field table holds exactly the rows with another id |
| Store.AppendedFieldIsListed | main.py:173-177 | a new field is listed last under its workflow |
| Store.AppendedPromptIsListed | main.py:196-199 | a new prompt is listed last under its field |
| Store.DeletingAppendedField | main.py:201-203 | deleting a field that was just appended under a fresh id restores the field table |
| Store.WorkflowInsert | main.py:39-41 | only an inserted outcome changes the table, by appending exactly the returned row |
| Store.FieldInsert | main.py:173-177 | only an inserted outcome changes the table, by appending exactly the returned row |
| Store.PromptInsert | main.py:196-199 | only an inserted outcome changes the table, by appending exactly the returned row |
| Store.FieldDelete | main.py:203 | a delete that raises changes nothing; otherwise it removes the field's rows |
| Store.Database.InsertWorkflow | main.py:39-41 | the store's new state and reply are those of `WorkflowInsert` |
| Store.Database.InsertField | main.py:173-177 | the store's new state and reply are those of `FieldInsert` |
| Store.Database.InsertPrompt | main.py:196-199 | the store's new state and reply are those of `PromptInsert` |
| Store.Database.DeleteField | main.py:203 | the store's new state and reply are those of `FieldDelete` |
| Api.IsDuplicateKey | main.py:57 | `"duplicate key value" in str(e).lower()`: the marker occurs in the lowered message; its meaning is stated by `Text.Contains` and `DuplicateKeyIgnoresCase` |
| Api.DuplicateKeyIgnoresCase | main.py:57 | "duplicate key value" is recognised whatever the case of the store's message |
| Api.HandleException | main.py:227-238 | an HTTP error passes through unchanged; any other exception is 409 exactly when its lowered message contains "duplicate key value", and otherwise a 500 "Database error: " followed by the message |
| Api.HandleWithoutConflict | main.py:355-361 | an HTTP error passes through; any other exception is a 500 carrying the handler's prefix and the message |
| Api.ExceptionText | main.py:57-64 | `str(e)`: another exception prints as its message; an HTTP error prints as its status in decimal, then ": ", then its detail |
| Api.HandleCreateWorkflowException | main.py:56-65 | with no passthrough clause, every exception is classified by its printed text: 409 exactly on a duplicate key, a 500 quoting the text otherwise |
| Api.CreateWorkflowSteps | main.py:37-54 | the tables are those the insert leaves; a returned row is the new workflow, an empty insert raises "Failed to create workflow" and a raising insert passes its message on |
| Api.CreateWorkflowEffect | main.py:37-65 | as written: the tables change only on a returned row, the call succeeds exactly then, and both an empty and a raising insert go through the handler that has no passthrough clause |
| Api.CreateWorkflowEffectCorrected | main.py:37-65 | corrected: the same, except that an empty insert yields "Failed to create workflow" itself and a raising insert is classified as in the other handlers |
| Api.CreateWorkflowInserts | main.py:37-54 | a successful insert appends exactly the new workflow and returns it, and a lookup by its id finds it |
| Api.CreateWorkflowClassifiesStoreError | main.py:56-65 | a raising insert changes nothing and is 409 on a duplicate key, a 500 with the message otherwise |
| Api.CreateWorkflowRewrapsItsOwnError | main.py:43-65 | as written, an empty insert yields a 500 "Database error: 500: Failed to create workflow", not the handler's own error |
| Api.CreateWorkflowCorrectedReportsFailure | main.py:43-47 | corrected, an empty insert yields "Failed to create workflow"; every other outcome is unchanged |
| Api.CreateWorkflow | main.py:32-65 | the store's new state and the answer are those of `CreateWorkflowEffect` |
| Api.CreateWorkflowCorrected | main.py:32-65 | the store's new state and the answer are those of the corrected effect |
| Api.CreateFieldChecks | main.py:149-170 | passing the checks means the path id parsed and the body names the same workflow |
| Api.CreateFieldSteps | main.py:147-225 | as written: a failed check writes nothing and raises the check's error; the workflows never change; a failed call never writes a prompt; a success needs both inserts to return rows and the body to name the new field |
| Api.CreateFieldStepsCompensated | main.py:147-225 | the same four facts for the version that deletes the new field on every failure after its insert |
| Api.CreateFieldEffect | main.py:147-238 | as written, with its handler: the workflows never change, a failed call never writes a prompt, and every 409 is the field-name conflict |
| Api.CreateFieldEffectCompensated | main.py:147-238 | the same three facts for the compensated version |
| Api.CreateFieldRejectsBeforeInsert | main.py:149-170 | a bad id is a 400, a raising lookup is classified, a missing workflow is a 404, a body naming another workflow is a 400; none of them changes any table |
| Api.CreateFieldInsertFails | main.py:172-183 | past the checks, a field insert that raises or returns no row changes no table; an empty one is "Failed to create field", a raising one is classified, and a duplicate field name is the 409 "A field with this name already exists in this workflow" |
| Api.CreateFieldSucceeds | main.py:172-225 | success exactly when the checks pass, both inserts return a row and the prompt names the new field; then exactly the field and the prompt are appended, both are returned, and each is listed last under its parent |
| Api.CreateFieldCompensatesMissingPrompt | main.py:201-207 | an empty prompt insert deletes the new field and yields "Failed to create prompt"; if the delete raises, its error is reported and the field remains |
| Api.CreateFieldLeavesOrphan | main.py:185-199 | as written, a prompt naming another field (400) and a raising prompt insert both leave the new field in the table |
| Api.CreateFieldCompensatedLeavesNoOrphan | main.py:185-207 | corrected, every failed call leaves the tables exactly as they were, given a working delete and a fresh id |
| Api.CreateFieldCompensatedAgrees | main.py:149-225 | the correction changes nothing before the field insert and nothing on success |
| Api.CreateFieldWithPrompt | main.py:142-238 | the store's new state and the answer are those of `CreateFieldEffect` |
| Api.CreateFieldWithPromptCompensated | main.py:142-238 | the store's new state and the answer are those of the corrected effect |
| Api.FirstFault | main.py:286-288 | finds the first per-field select that raises, and none exactly when no select raises |
| Api.FirstFaultAt | main.py:286-288 | a select that raises after every earlier one succeeded is the first to raise in any longer run |
| Api.GetWorkflow | main.py:68-135 | 400 on a bad id, 404 on a missing workflow, a 500 "Database error: " for the first select that raises; otherwise the workflow row and, for each of its fields in table order, exactly that field's prompts |
| Api.AssembleFields | main.py:95-121 | stops at the first prompt select that raises; otherwise pairs each field, in order, with exactly the prompts stored under it |
| Api.FieldOutcome | main.py:290-339 | one pass of the execution loop for one field; its contract is stated by `FieldOutcomeReports` |
| Api.FieldOutcomeReports | main.py:288-339 | a report copies the field's id, name and type; with no prompts it is a failure "No prompts found for this field" with an empty template and response; otherwise the first prompt runs, and the report holds the text and no error on success, and an empty response and the error on failure |
| Api.Successes | main.py:282-339 | the success count never exceeds the number of reports |
| Api.SuccessesStep | main.py:320-339 | one more report raises the count by one exactly when it is a success |
| Api.NoSuccesses | main.py:282-339 | the count is zero exactly when every field failed |
| Api.AllSuccesses | main.py:282-339 | the count equals the number of reports exactly when every field succeeded |
| Api.Reports | main.py:286-339 | one report per field |
| Api.ReportsStep | main.py:286-339 | the reports for one more field are the earlier reports followed by that field's |
| Api.ReportsAt | main.py:286-339 | the k-th report is the outcome of the k-th field, with its own prompts and its own call |
| Api.MissingKeyFailsEveryField | main.py:306-339 | without an API key no field succeeds |
| Api.Tally | main.py:288-339 | one pass of the loop appends exactly the next field's report and raises the matching counter; the success counter stays equal to the number of successful reports and the counters add up to the fields seen |
| Api.RunFields | main.py:282-339 | stops at the first raising prompt select; otherwise gives the reports of all fields in order, counts the successes, and the two counters add up to the number of fields |
| Api.ExecuteWorkflow | main.py:244-361 | 400 on a bad id, 404 on a missing workflow or on no fields (before any call), a 500 "Unexpected error during workflow execution: " for the first select that raises; otherwise the workflow's id and name, the input, the time, one report per field, successes counted, successes plus failures equal to the total, and no success without a key |
| Api.EverythingAnswered | main.py:306-325 | with a key, a prompt on every field and content in every answer, every field succeeds |

## Left out

- database.py: reading the connection settings and building the database
  client is configuration. It is not part of this model.
- The real database calls become the in-memory `Store.Database`. Uniqueness is
  the database's business: a duplicate is modelled only as an insert that
  raises with a message.
- The chat-completions call becomes the `api` parameter. The model name,
  `max_tokens`, `temperature`, the timeouts and the client object are not
  represented. The client is built when services.py is imported
  (services.py:13), and the client library refuses to build it when the key
  variable is unset. A process started without the key therefore serves no
  request at all. Only an empty key, or one removed after start-up, reaches
  the key guard at services.py:32 and services.py:89 that the model states.
- Services.ExecutePrompt: reads the reply with the corrected `ReadReply`, so
  an API error carries the "OpenAI API error: " text. As written, the re-raise
  at services.py:61 and services.py:121 fails with a TypeError, and that text
  is what `execute_workflow` stores as the field's error
  (`ReadReplyAsWritten`, see "## Findings"). `ExecutePromptWithCustomParams`,
  `FieldOutcome` and `ExecuteWorkflow` use the corrected reading too.
- `async`/`await` and the FastAPI routing and response-model layer. The loop
  awaits each call in turn, so there is no concurrency to model.
- `health_check` and `root` (main.py:368-403): a probe of the store and a
  constant dictionary.
- Uuids.ParseUuid: accepts exactly the texts that are 32 ASCII hex digits
  once every hyphen is removed, as `uuid.UUID` removes them. `uuid.UUID` also
  removes every "urn:" and "uuid:" and strips braces from both ends. After
  its length check of 32 characters it parses with `int(hex, 16)`, which also
  accepts surrounding whitespace, a leading `+`, a `0x` prefix, single
  underscores between digits and non-ASCII digits. For example, a space
  followed by 31 zeros is UUID 0 in the source, but the model rejects it with
  a 400 (main.py:75-81, main.py:149-155). None of these forms is modelled.
- Text.Lower: lowers ASCII letters only and keeps every other character.
  Python's `str.lower()` also maps non-ASCII letters, and some of them lower
  to ASCII: U+212A KELVIN SIGN becomes `k`, and U+0130 becomes `i` followed
  by U+0307, which also changes the length. So a store message reading
  "duplicate \u212Aey value" is a 409 in the source (main.py:57,
  main.py:230) and a 500 in the model.
- Store.WorkflowInsert, Store.FieldInsert, Store.PromptInsert: an insert that
  raises or returns no row writes nothing. A remote store can raise after it
  has committed, for example on a read time-out, and that case is not
  modelled. Api.CreateWorkflowClassifiesStoreError ("changes nothing"),
  Api.CreateFieldInsertFails, Api.CreateFieldCompensatesMissingPrompt and
  Api.CreateFieldCompensatedLeavesNoOrphan ("the tables as they were") hold
  only under this assumption.
- Pydantic's `min_length=1` on the text fields: every string it rejects, the
  validator also rejects. Only the validator's message is modelled. Type
  coercion into UUIDs and datetimes is not modelled either.
- Timestamps (`created_at`, `datetime.utcnow()`) are opaque integers, supplied
  by the store or by the `now` parameter.
- Models.ParseFieldCreate: cannot express a body whose `workflow_id` is not a
  UUID, because that is pydantic's coercion.

## Findings

| source | as written | input that shows it | evidently intended | confidence | as-written member | corrected member |
|---|---|---|---|---|---|---|
| main.py:43-65 | `create_workflow` raises its own HTTP 500 "Failed to create workflow" inside the `try` block, but has no `except HTTPException: raise` clause. Its `except Exception` catches that error and wraps it again | an insert that returns no data | a 500 "Failed to create workflow", as the other handlers let their own HTTP errors through | high for the missing clause; medium for the exact text "Database error: 500: Failed to create workflow", which depends on how the framework prints an HTTPException; not executed | Api.CreateWorkflowRewrapsItsOwnError | Api.CreateWorkflowCorrectedReportsFailure |
| main.py:185-207 | the field is inserted first and the prompt's `field_id` is checked afterwards. A mismatch is a 400, and a prompt insert that raises is mapped to 409/500. Neither deletes the field just inserted. The check compares against an id that the store generates during this same request, so a client cannot normally know it in advance | any body whose prompt `field_id` is not the id the store assigns (in practice every first request), or a prompt insert that raises | every failure after the field insert removes the field, as the empty-prompt case does | high; not executed | Api.CreateFieldLeavesOrphan | Api.CreateFieldCompensatedLeavesNoOrphan |
| services.py:60-61 | an `openai.APIError` is re-raised as `openai.APIError(f"OpenAI API error: ...")` with one argument. The client library version that provides `AsyncOpenAI` (services.py:10) requires the failed request as a second argument, so the re-raise raises a TypeError. It is raised inside the `except openai.APIError` clause, so the sibling `except Exception` does not rewrap it, and `execute_workflow` stores its text as the field's error (main.py:327-336). The same holds at services.py:120-121 | any reply that is an API error | the field's error reads "OpenAI API error: " followed by the service's message | high for the failing re-raise; medium for the exact TypeError text "APIError.__init__() missing 1 required positional argument: 'request'", which depends on the Python and library versions; not executed | Services.ApiErrorRebuildLosesMessage | Services.ReadReply |
