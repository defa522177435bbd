/**
 * Prompt execution against the chat-completions service. The network call
 * itself is a parameter `api`: whatever it answers for the request built
 * here is what the code reads back. The model identifier, token limit,
 * temperature and timeout the code passes along are not represented.
 */
module Services {
  import opened Wrappers
  import opened Text

  const DEFAULT_SYSTEM_MESSAGE := "You are a helpful AI assistant. Follow the instructions in the prompt carefully."
  const USER_INPUT_SEPARATOR := "\n\nUser Input: "
  const MISSING_KEY := "OPENAI_API_KEY environment variable is required"
  const API_ERROR_PREFIX := "OpenAI API error: "
  const UNEXPECTED_ERROR_PREFIX := "Unexpected error during prompt execution: "
  /** `str()` of the IndexError raised by `choices[0]` on an empty list. */
  const NO_CHOICES := "list index out of range"
  /** `str()` of the AttributeError raised by calling `strip()` on a null content. */
  const NULL_CONTENT := "'NoneType' object has no attribute 'strip'"

  datatype Message = Message(role: string, content: string)

  datatype ChatRequest = ChatRequest(messages: seq<Message>)

  /**
   * The outcome of one chat-completions call: the message content of each
   * returned choice (a content may be null), or the exception it raised,
   * split into the client library's API errors and everything else.
   */
  datatype ChatReply =
    | Completion(choices: seq<Option<string>>)
    | ApiFailure(message: string)
    | OtherFailure(message: string)

  /** `not os.getenv("OPENAI_API_KEY")`: the variable is unset or empty. */
  predicate KeyMissing(key: Option<string>)
  {
    key.None? || key.value == ""
  }

  /**
   * The user message: the template, a blank line, the label `User Input: `
   * and the input, in that order and nothing else.
   */
  function CombinePrompt(template: string, input: string): (r: string)
    ensures |r| == |template| + |USER_INPUT_SEPARATOR| + |input|
    ensures r[..|template|] == template
    ensures r[|template|..|template| + |USER_INPUT_SEPARATOR|] == USER_INPUT_SEPARATOR
    ensures r[|template| + |USER_INPUT_SEPARATOR|..] == input
  {
    template + USER_INPUT_SEPARATOR + input
  }

  /**
   * The user message determines its parts once the template's length is
   * known; in particular, for a fixed template it determines the input, and
   * for a fixed input it determines the template.
   */
  lemma CombinePromptInjective(t1: string, i1: string, t2: string, i2: string)
    requires CombinePrompt(t1, i1) == CombinePrompt(t2, i2)
    requires |t1| == |t2| || |i1| == |i2|
    ensures t1 == t2 && i1 == i2
  {
    var c := CombinePrompt(t1, i1);
    assert |t1| == |t2| && |i1| == |i2|;
    assert t1 == c[..|t1|] == t2;
    assert i1 == c[|t1| + |USER_INPUT_SEPARATOR|..] == i2;
  }

  /** `system_message or DEFAULT`: a non-empty custom message wins, otherwise the fixed default. */
  function SystemContent(systemMessage: Option<string>): (r: string)
    ensures systemMessage.Some? && systemMessage.value != "" ==> r == systemMessage.value
    ensures systemMessage.None? || systemMessage.value == "" ==> r == DEFAULT_SYSTEM_MESSAGE
  {
    if systemMessage.Some? && systemMessage.value != "" then systemMessage.value else DEFAULT_SYSTEM_MESSAGE
  }

  /** The two-message conversation sent for one prompt. */
  function PromptRequest(system: string, user: string): ChatRequest
  {
    ChatRequest([Message("system", system), Message("user", user)])
  }

  /**
   * Reading the reply: the first choice's content, stripped. An API error is
   * re-raised under its own prefix; anything else that goes wrong, including
   * no choice at all or a null content, under the "unexpected" prefix.
   */
  function ReadReply(reply: ChatReply): (r: Result<string, string>)
    ensures r.Ok? <==> reply.Completion? && |reply.choices| > 0 && reply.choices[0].Some?
    ensures r.Ok? ==> r.value == Strip(reply.choices[0].value) && IsTrimmed(r.value)
    ensures reply.ApiFailure? ==> r == Err(API_ERROR_PREFIX + reply.message)
    ensures reply.OtherFailure? ==> r == Err(UNEXPECTED_ERROR_PREFIX + reply.message)
    ensures reply.Completion? && reply.choices == [] ==> r == Err(UNEXPECTED_ERROR_PREFIX + NO_CHOICES)
    ensures reply.Completion? && reply.choices != [] && reply.choices[0].None? ==>
              r == Err(UNEXPECTED_ERROR_PREFIX + NULL_CONTENT)
  {
    match reply
    case ApiFailure(m) => Err(API_ERROR_PREFIX + m)
    case OtherFailure(m) => Err(UNEXPECTED_ERROR_PREFIX + m)
    case Completion(choices) =>
      if choices == [] then Err(UNEXPECTED_ERROR_PREFIX + NO_CHOICES)
      else if choices[0].None? then Err(UNEXPECTED_ERROR_PREFIX + NULL_CONTENT)
      else Ok(Strip(choices[0].value))
  }

  /**
   * `str()` of the TypeError raised by the re-raise `openai.APIError(text)`:
   * the client library's `APIError` also requires the request that failed,
   * so the constructor call itself fails.
   */
  const API_ERROR_REBUILD_FAILS := "APIError.__init__() " + "missing 1 required positional argument: 'request'"

  /**
   * Reading the reply as the code is written: an API error is rebuilt with one
   * argument only, and the TypeError that raises is what leaves the function.
   * It is raised inside the `except openai.APIError` clause, so the sibling
   * `except Exception` clause does not see it. Every other reply is read as
   * `ReadReply` reads it.
   */
  function ReadReplyAsWritten(reply: ChatReply): Result<string, string>
  {
    match reply
    case ApiFailure(_) => Err(API_ERROR_REBUILD_FAILS)
    case _ => ReadReply(reply)
  }

  /**
   * As written, an API error loses both the "OpenAI API error: " prefix and
   * the service's own message: every API error reads the same, and never as
   * the intended text.
   */
  lemma ApiErrorRebuildLosesMessage(m1: string, m2: string)
    ensures ReadReplyAsWritten(ApiFailure(m1)) == ReadReplyAsWritten(ApiFailure(m2)) == Err(API_ERROR_REBUILD_FAILS)
    ensures ReadReplyAsWritten(ApiFailure(m1)) != ReadReply(ApiFailure(m1))
    ensures m1 != m2 ==> ReadReply(ApiFailure(m1)) != ReadReply(ApiFailure(m2))
    ensures forall reply: ChatReply :: !reply.ApiFailure? ==> ReadReplyAsWritten(reply) == ReadReply(reply)
  {
    assert (API_ERROR_PREFIX + m1)[0] == 'O';
    assert API_ERROR_REBUILD_FAILS[0] == 'A';
    if m1 != m2 {
      var a, b := API_ERROR_PREFIX + m1, API_ERROR_PREFIX + m2;
      assert a[|API_ERROR_PREFIX|..] == m1 && b[|API_ERROR_PREFIX|..] == m2;
    }
  }

  /**
   * `execute_prompt`: with no key, fail before any request exists; otherwise
   * send the fixed system message and the combined prompt, and read the reply.
   */
  function ExecutePrompt(key: Option<string>, template: string, input: string, api: ChatRequest -> ChatReply)
    : (r: Result<string, string>)
    ensures KeyMissing(key) ==> r == Err(MISSING_KEY)
    ensures !KeyMissing(key) ==>
              r == ReadReply(api(PromptRequest(DEFAULT_SYSTEM_MESSAGE, CombinePrompt(template, input))))
  {
    if KeyMissing(key) then Err(MISSING_KEY)
    else
      var combined := template + USER_INPUT_SEPARATOR + input;
      ReadReply(api(PromptRequest(DEFAULT_SYSTEM_MESSAGE, combined)))
  }

  /**
   * `execute_prompt_with_custom_params`: the same combined prompt, with the
   * system message chosen by `SystemContent`.
   */
  function ExecutePromptWithCustomParams(
    key: Option<string>, template: string, input: string, systemMessage: Option<string>,
    api: ChatRequest -> ChatReply): (r: Result<string, string>)
    ensures KeyMissing(key) ==> r == Err(MISSING_KEY)
    ensures !KeyMissing(key) ==>
              r == ReadReply(api(PromptRequest(SystemContent(systemMessage), CombinePrompt(template, input))))
  {
    if KeyMissing(key) then Err(MISSING_KEY)
    else
      var combined := template + USER_INPUT_SEPARATOR + input;
      var system := if systemMessage.Some? && systemMessage.value != "" then systemMessage.value
                    else DEFAULT_SYSTEM_MESSAGE;
      ReadReply(api(PromptRequest(system, combined)))
  }

  /** Without a usable custom system message the two entry points behave identically. */
  lemma CustomWithoutSystemMessageIsPlain(
    key: Option<string>, template: string, input: string, systemMessage: Option<string>,
    api: ChatRequest -> ChatReply)
    requires systemMessage.None? || systemMessage.value == ""
    ensures ExecutePromptWithCustomParams(key, template, input, systemMessage, api)
         == ExecutePrompt(key, template, input, api)
  {
  }

  const HELLO_REQUEST := ChatRequest([Message("user", "Hello")])

  /**
   * `test_openai_connection`: false without a key; otherwise true exactly when
   * the one-message probe comes back with a first choice whose content is
   * not null. Every failure reads as false.
   */
  function TestOpenAIConnection(key: Option<string>, api: ChatRequest -> ChatReply): (r: bool)
    ensures KeyMissing(key) ==> !r
    ensures r <==> !KeyMissing(key) && api(HELLO_REQUEST).Completion?
                   && |api(HELLO_REQUEST).choices| > 0 && api(HELLO_REQUEST).choices[0].Some?
  {
    if KeyMissing(key) then false
    else
      match api(HELLO_REQUEST)
      case Completion(choices) => |choices| > 0 && choices[0].Some?
      case _ => false
  }
}
