/**
 * The generation client of llm.py: the credential check that builds the
 * shared client, and `generate_response`, which turns a prompt and the
 * completion service's outcome into the uniform result envelope. Python's
 * exceptions are values here: the service's outcome either is a completion
 * or names the exception it raised, and the `except` clauses are matched in
 * order against that exception the way Python matches `isinstance`.
 */
module Llm {
  import opened Wrappers
  import opened Text

  // ---------------------------------------------------------------------
  // Credential check (`get_openai_client`)
  // ---------------------------------------------------------------------

  /** The handle of the completion service, built once from the key and then only read. */
  datatype Client = Client(apiKey: string)

  /** The exceptions `get_openai_client` lets escape, with their messages. */
  datatype ConfigError = RuntimeError(message: string) | ValueError(message: string)

  const KeyNotFoundMessage := "OpenAI API key not found. Please set it in .streamlit/secrets.toml"
  const EmptyKeyMessage := "OPENAI_API_KEY is empty."

  /** What the `try` block of `get_openai_client` raises before any handler runs. */
  datatype LookupFault = KeyError | Raised(error: ConfigError)

  /**
   * The `try` block: looking up a missing secret raises `KeyError`; a key that
   * is present but empty (Python-falsy) raises `ValueError`; otherwise the
   * client is built from the key as it is.
   */
  function TryLookup(secret: Option<string>): (r: Result<Client, LookupFault>)
    ensures r.Ok? <==> secret.Some? && secret.value != ""
    ensures r.Ok? ==> r.value.apiKey == secret.value
    ensures r == Err(KeyError) <==> secret.None?
    ensures secret == Some("") ==> r == Err(Raised(ValueError(EmptyKeyMessage)))
  {
    match secret
    case None => Err(KeyError)
    case Some(key) =>
      if key == "" then Err(Raised(ValueError(EmptyKeyMessage))) else Ok(Client(key))
  }

  /**
   * `get_openai_client`: the lookup, with only `KeyError` caught and replaced
   * by a `RuntimeError` naming where the key belongs. The empty key's
   * `ValueError` is not a `KeyError`, so it escapes unchanged.
   */
  function GetOpenAIClient(secret: Option<string>): (r: Result<Client, ConfigError>)
    ensures r.Ok? <==> secret.Some? && secret.value != ""
    ensures r.Ok? ==> r.value == Client(secret.value)
    ensures secret.None? ==> r == Err(RuntimeError(KeyNotFoundMessage))
    ensures secret == Some("") ==> r == Err(ValueError(EmptyKeyMessage))
  {
    match TryLookup(secret)
    case Ok(client) => Ok(client)
    case Err(KeyError) => Err(RuntimeError(KeyNotFoundMessage))
    case Err(Raised(e)) => Err(e)
  }

  /**
   * The key is checked for Python truthiness only, not stripped: a key of
   * spaces builds a client, and the two failures are told apart by kind.
   */
  lemma CredentialCheckIsTruthinessOnly(key: string)
    requires key != [] && AllSpace(key)
    ensures GetOpenAIClient(Some(key)) == Ok(Client(key))
    ensures GetOpenAIClient(None).error.RuntimeError?
    ensures GetOpenAIClient(Some("")).error.ValueError?
  {
  }

  // ---------------------------------------------------------------------
  // Requests and outcomes of the completion service
  // ---------------------------------------------------------------------

  /** Token counts the service may report with a completion. */
  datatype Usage = Usage(promptTokens: nat, completionTokens: nat, totalTokens: nat)

  datatype Message = Message(role: string, content: string)

  /** The chat request sent for one prompt. */
  datatype ChatRequest = ChatRequest(messages: seq<Message>)

  /**
   * The exceptions that reach `generate_response`'s handlers, with `str(e)`.
   * In the OpenAI SDK `RateLimitError` and `APITimeoutError` are subclasses
   * of `APIError`; `OtherException` is any other `Exception`.
   */
  datatype Fault =
    | RateLimitError(message: string)
    | APITimeoutError(message: string)
    | APIError(message: string)
    | OtherException(message: string)

  /** What one call to the service gives: a completion (its choices' message contents and usage) or an exception. */
  datatype Outcome =
    | Completion(choices: seq<Option<string>>, usage: Option<Usage>)
    | Failed(fault: Fault)

  /** The result dictionary `{success, content, usage, error}`. */
  datatype Envelope = Envelope(success: bool, content: string, usage: Option<Usage>, error: Option<string>)

  const EmptyPromptMessage := "Prompt is empty."
  // Written as two literals so that the verifier can see the characters of a message this long.
  const RateLimitMessage := "Rate limit exceeded. " + "Please wait and try again."
  const TimeoutMessage := "Request timed out. Try again."
  const ApiErrorPrefix := "API Error: "
  const UnexpectedMessage := "Unexpected error occurred. Check logs."

  /** The failure envelope every handler and the blank guard return. */
  function Failure(error: string): (r: Envelope)
    ensures !r.success && r.error == Some(error)
    ensures r.content == [] && r.usage.None?
  {
    Envelope(false, "", None, Some(error))
  }

  /** The request for a prompt: one user-role message holding it. */
  function UserRequest(prompt: string): (r: ChatRequest)
    ensures |r.messages| == 1 && r.messages[0].role == "user" && r.messages[0].content == prompt
  {
    ChatRequest([Message("user", prompt)])
  }

  // ---------------------------------------------------------------------
  // The except clauses of `generate_response`
  // ---------------------------------------------------------------------

  datatype Clause = RateLimitClause | TimeoutClause | APIErrorClause | ExceptionClause

  /** The handlers in the order they are written. */
  const Clauses := [RateLimitClause, TimeoutClause, APIErrorClause, ExceptionClause]

  /** `isinstance(fault, <class the clause names>)`. */
  predicate Catches(c: Clause, f: Fault)
    ensures c == ExceptionClause ==> Catches(c, f)
    ensures c != ExceptionClause && Catches(c, f) ==> !f.OtherException?
  {
    match c
    case RateLimitClause => f.RateLimitError?
    case TimeoutClause => f.APITimeoutError?
    case APIErrorClause => !f.OtherException?
    case ExceptionClause => true
  }

  /** The error message the body of clause `c` puts in its envelope. */
  function HandlerMessage(c: Clause, f: Fault): (r: string)
    ensures c == APIErrorClause ==> StartsWith(r, ApiErrorPrefix) && r[|ApiErrorPrefix|..] == f.message
    ensures c != APIErrorClause ==> r != [] && !StartsWith(r, ApiErrorPrefix)
  {
    FixedMessagesLackApiPrefix();
    match c
    case RateLimitClause => RateLimitMessage
    case TimeoutClause => TimeoutMessage
    case APIErrorClause => ApiErrorPrefix + f.message
    case ExceptionClause => UnexpectedMessage
  }

  /** The index of the first clause in `clauses` that catches `f`, or `|clauses|` if none does. */
  function FirstCatching(clauses: seq<Clause>, f: Fault): (i: nat)
    ensures i <= |clauses|
    ensures forall k | 0 <= k < i :: !Catches(clauses[k], f)
    ensures i < |clauses| ==> Catches(clauses[i], f)
  {
    if clauses == [] then 0
    else if Catches(clauses[0], f) then 0
    else 1 + FirstCatching(clauses[1..], f)
  }

  /** Python's handler selection: the first matching clause handles the fault. */
  function Handle(f: Fault): (r: Envelope)
    ensures !r.success && r.content == [] && r.usage.None? && r.error.Some?
  {
    var i := FirstCatching(Clauses, f);
    assert Catches(Clauses[3], f);
    Failure(HandlerMessage(Clauses[i], f))
  }

  // ---------------------------------------------------------------------
  // `generate_response`
  // ---------------------------------------------------------------------

  /**
   * The body of the `try` block once the service has answered: read
   * `choices[0].message.content`, strip it, and attach the usage if any.
   * No choice raises `IndexError`; a `None` content has no `strip` and
   * raises `AttributeError`; both are plain `Exception`s.
   */
  function ReadCompletion(o: Outcome): (r: Result<Envelope, Fault>)
    ensures r.Ok? <==> o.Completion? && |o.choices| > 0 && o.choices[0].Some?
    ensures r.Ok? ==> r.value == Envelope(true, Strip(o.choices[0].value), o.usage, None)
    ensures o.Failed? ==> r == Err(o.fault)
    ensures o.Completion? && r.Err? ==> r.error.OtherException?
  {
    match o
    case Failed(f) => Err(f)
    case Completion(choices, usage) =>
      if |choices| == 0 then Err(OtherException("list index out of range"))
      else if choices[0].None? then Err(OtherException("'NoneType' object has no attribute 'strip'"))
      else Ok(Envelope(true, Strip(choices[0].value), usage, None))
  }

  /** `not prompt or not prompt.strip()`. */
  predicate IsBlank(prompt: string)
    ensures IsBlank(prompt) <==> AllSpace(prompt)
  {
    prompt == [] || Strip(prompt) == []
  }

  /**
   * `generate_response`: a blank prompt fails at once; otherwise the prompt
   * goes to the service as one user message and the outcome is read, any
   * exception going to the first matching handler. The envelope is a
   * success exactly when it carries no error; a failure has empty content
   * and no usage; a success's content has no outer whitespace.
   */
  function GenerateResponse(prompt: string, service: ChatRequest -> Outcome): (r: Envelope)
    ensures r.success <==> r.error.None?
    ensures !r.success ==> r.content == [] && r.usage.None?
    ensures r.success ==> NoOuterSpace(r.content) && Strip(r.content) == r.content
    ensures AllSpace(prompt) <==> r == Failure(EmptyPromptMessage)
  {
    if IsBlank(prompt) then
      Failure(EmptyPromptMessage)
    else
      match ReadCompletion(service(UserRequest(prompt)))
      case Ok(envelope) =>
        StripIdempotent(service(UserRequest(prompt)).choices[0].value);
        envelope
      case Err(f) => Handle(f)
  }

  // ---------------------------------------------------------------------
  // What `generate_response` promises
  // ---------------------------------------------------------------------

  /** The clause that handles each kind of fault: its own clause, or the catch-all for any other exception. */
  lemma {:induction false} HandlingClause(f: Fault)
    ensures f.RateLimitError? ==> FirstCatching(Clauses, f) == 0
    ensures f.APITimeoutError? ==> FirstCatching(Clauses, f) == 1
    ensures f.APIError? ==> FirstCatching(Clauses, f) == 2
    ensures f.OtherException? ==> FirstCatching(Clauses, f) == 3
  {
    var i := FirstCatching(Clauses, f);
    assert Clauses[0] == RateLimitClause && Clauses[1] == TimeoutClause;
    assert Clauses[2] == APIErrorClause && Clauses[3] == ExceptionClause;
    assert Catches(Clauses[3], f);
    if f.APIError? {
      assert Catches(Clauses[2], f);
    }
  }

  /** A blank prompt is answered without the service: any two services give the same envelope. */
  lemma BlankPromptSkipsService(prompt: string, service: ChatRequest -> Outcome, other: ChatRequest -> Outcome)
    requires AllSpace(prompt)
    ensures GenerateResponse(prompt, service) == GenerateResponse(prompt, other) == Failure(EmptyPromptMessage)
  {
  }

  /**
   * A completion whose first choice has text succeeds with that text
   * stripped, and carries usage exactly when the service reported it.
   */
  lemma ReplySucceeds(prompt: string, service: ChatRequest -> Outcome, text: string)
    requires !AllSpace(prompt)
    requires service(UserRequest(prompt)).Completion?
    requires |service(UserRequest(prompt)).choices| > 0
    requires service(UserRequest(prompt)).choices[0] == Some(text)
    ensures var r := GenerateResponse(prompt, service);
      r.success && r.content == Strip(text) && r.error.None?
      && r.usage == service(UserRequest(prompt)).usage
  {
  }

  /** A completion with no choice, or whose first choice has no content, ends in the catch-all handler. */
  lemma MissingContentIsUnexpected(prompt: string, service: ChatRequest -> Outcome)
    requires !AllSpace(prompt)
    requires service(UserRequest(prompt)).Completion?
    requires |service(UserRequest(prompt)).choices| == 0 || service(UserRequest(prompt)).choices[0].None?
    ensures GenerateResponse(prompt, service) == Failure(UnexpectedMessage)
  {
    HandlingClause(ReadCompletion(service(UserRequest(prompt))).error);
  }

  /** The error taxonomy: each exception class the service raises maps to its fixed message. */
  lemma FaultMessages(prompt: string, service: ChatRequest -> Outcome, f: Fault)
    requires !AllSpace(prompt) && service(UserRequest(prompt)) == Failed(f)
    ensures var r := GenerateResponse(prompt, service);
      && (f.RateLimitError? ==> r == Failure(RateLimitMessage))
      && (f.APITimeoutError? ==> r == Failure(TimeoutMessage))
      && (f.APIError? ==> r == Failure(ApiErrorPrefix + f.message))
      && (f.OtherException? ==> r == Failure(UnexpectedMessage))
  {
    HandlingClause(f);
  }

  /**
   * Clause order matters: a rate-limit or timeout error is also an
   * `APIError`, yet the earlier clauses take it, so it never gets the
   * `APIError` clause's message.
   */
  lemma EarlierClausesWin(m: string)
    ensures Catches(APIErrorClause, RateLimitError(m)) && Catches(APIErrorClause, APITimeoutError(m))
    ensures Handle(RateLimitError(m)) == Failure(RateLimitMessage)
    ensures Handle(APITimeoutError(m)) == Failure(TimeoutMessage)
    ensures Handle(RateLimitError(m)) != Failure(HandlerMessage(APIErrorClause, RateLimitError(m)))
    ensures Handle(APITimeoutError(m)) != Failure(HandlerMessage(APIErrorClause, APITimeoutError(m)))
  {
    HandlingClause(RateLimitError(m));
    HandlingClause(APITimeoutError(m));
    assert (ApiErrorPrefix + m)[0] == 'A' && RateLimitMessage[0] == 'R' && TimeoutMessage[0] == 'R';
  }

  /** None of the fixed messages looks like an "API Error: " message. */
  lemma FixedMessagesLackApiPrefix()
    ensures !StartsWith(EmptyPromptMessage, ApiErrorPrefix) && !StartsWith(RateLimitMessage, ApiErrorPrefix)
    ensures !StartsWith(TimeoutMessage, ApiErrorPrefix) && !StartsWith(UnexpectedMessage, ApiErrorPrefix)
  {
    assert ApiErrorPrefix[0] == 'A';
    assert EmptyPromptMessage[0] == 'P' && RateLimitMessage[0] == 'R';
    assert TimeoutMessage[0] == 'R' && UnexpectedMessage[0] == 'U';
  }

  /** An "API Error: " message comes from a service `APIError` and from nothing else. */
  lemma ApiErrorMessageExactlyForApiError(prompt: string, service: ChatRequest -> Outcome)
    ensures var r := GenerateResponse(prompt, service);
      (r.error.Some? && StartsWith(r.error.value, ApiErrorPrefix))
      <==> (!AllSpace(prompt) && service(UserRequest(prompt)).Failed?
            && service(UserRequest(prompt)).fault.APIError?)
  {
    var r := GenerateResponse(prompt, service);
    var o := service(UserRequest(prompt));
    FixedMessagesLackApiPrefix();
    if !AllSpace(prompt) {
      if o.Failed? {
        FaultMessages(prompt, service, o.fault);
        assert (ApiErrorPrefix + o.fault.message)[..|ApiErrorPrefix|] == ApiErrorPrefix;
      } else if ReadCompletion(o).Err? {
        MissingContentIsUnexpected(prompt, service);
      }
    }
  }
}
