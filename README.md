# PromptForge generation core, modelled in Dafny

PromptForge is a Streamlit playground. It renders one task through four prompt
templates (zero-shot, few-shot, chain-of-thought, role-based), sends each
prompt to the OpenAI chat-completion service, and shows the four results side
by side. This project models the two parts of it that hold logic:

- `prompt_variants.py`, the four renderers (module `PromptVariants`). Each one
  is a fixed prefix, the task and a fixed suffix. Together with the ordered
  name-to-prompt table that `app.py` builds from them (`RenderAll`), the
  lemmas prove:
  - exact framing, containment and lengths;
  - injectivity in the task;
  - pairwise distinctness of the four prompts.
- `llm.py`, the generation client (module `Llm`):
  - `get_openai_client`: the credential check that builds the shared client;
  - `generate_response`: the blank-prompt guard, the success envelope, and the
    mapping of exceptions to fixed messages.

  The OpenAI SDK call is replaced by a total function
  `service: ChatRequest -> Outcome`. An `Outcome` is either a completion (the choices' message contents, each possibly `None`, plus optional usage)
  or the exception the call raised. Python's `except` chain is modelled as an
  ordered list of clauses. Each clause catches by the SDK's class hierarchy,
  in which `RateLimitError` and `APITimeoutError` are subclasses of
  `APIError`. The first clause that catches an exception handles it, so the
  proofs show why the order of the clauses matters.

Python's `str.strip()` and `str.isspace` are modelled in module `Text`.
`IsSpace` is the full set of characters `str.isspace` accepts, not only ASCII
whitespace. `Strip` removes the maximal leading and trailing runs of them.
`StripUnique` shows that this is the only way to split a string into
whitespace, a middle with no outer whitespace, and whitespace.

Two details of the code that the model keeps:
- A present but empty key raises `ValueError("OPENAI_API_KEY is empty.")`.
  The `except KeyError` clause does not catch it, so the message naming
  `.streamlit/secrets.toml` is not shown for it.
- The chain-of-thought template also puts a newline before the task.

Every renderer is a Dafny function, so it gives the same output for the same
task by construction.

## Model

| member | source | states |
|---|---|---|
| `PromptVariants.ZeroShot` | prompt_variants.py:1-2 | the zero-shot prompt is the task itself |
| `PromptVariants.FewShot` | prompt_variants.py:4-13 | the prompt is the exemplar prefix (ending "Now your turn:\nTask: "), then the task, then "\nAnswer:\n"; its length is the task's plus 139 |
| `PromptVariants.ChainOfThought` | prompt_variants.py:15-20 | the prompt is "\n", then the task, then "\n\nLet's think step by step.\n"; its length is the task's plus 29 |
| `PromptVariants.RoleBased` | prompt_variants.py:22-28 | the prompt is the educator persona preamble ending "Task:\n", then the task, then "\n"; its length is the task's plus 48 |
| `PromptVariants.RenderersInjective` | prompt_variants.py:1-28 | each of the four renderers maps different tasks to different prompts |
| `PromptVariants.RenderingsContainTask` | prompt_variants.py:1-28 | every rendering contains the task as a substring |
| `PromptVariants.FewShotContainsExemplar` | prompt_variants.py:4-13 | whatever the task, the few-shot prompt contains "Task: Explain gravity to a child." and the gravity answer line |
| `PromptVariants.TemplateEnds` | prompt_variants.py:15-28 | chain-of-thought ends with the step-by-step cue; role-based starts with the persona line and ends with a newline |
| `PromptVariants.RenderingsDistinct` | prompt_variants.py:1-28 | for one task the four prompts are pairwise distinct, and all but zero-shot are non-empty |
| `PromptVariants.RenderAll` | app.py:50-55 | the experiment table pairs each of the four variant names, in display order, with its own renderer's prompt; the names are distinct, the prompts pairwise distinct and each contains the task |
| `Text.IsSpace` | llm.py:91 | the six ASCII whitespace characters are whitespace; digits and ASCII letters are not, and no whitespace character lies above U+3000 |
| `Text.LeadingSpaces` | llm.py:91 | the count of leading characters that are all whitespace, stopping at the first non-space character or at the end |
| `Text.TrailingStart` | llm.py:91 | the index from which every character to the end is whitespace, right after a non-space character or at 0 |
| `Text.Strip` | llm.py:91 | `str.strip()` gives a string with no outer whitespace, no longer than the input, that is empty exactly when the input is all whitespace |
| `Text.StripWindow` | llm.py:91 | the stripped string is a window of the input with only whitespace on either side |
| `Text.StripUnique` | llm.py:91 | any split into a whitespace head, a middle without outer whitespace and a whitespace tail has the stripped string as its middle |
| `Text.StripIdempotent` | llm.py:91 | stripping twice gives the same result as stripping once |
| `Llm.TryLookup` | llm.py:32-37 | a missing secret raises `KeyError`, an empty key raises `ValueError("OPENAI_API_KEY is empty.")`, and any non-empty key builds a client holding it |
| `Llm.GetOpenAIClient` | llm.py:27-43 | Ok exactly for a non-empty key; a missing key gives `RuntimeError` with the secrets.toml message; an empty key's `ValueError` escapes with "OPENAI_API_KEY is empty." |
| `Llm.CredentialCheckIsTruthinessOnly` | llm.py:34-35 | a key made only of spaces is accepted as it is; the two failures are of different exception kinds |
| `Llm.Failure` | llm.py:98-103 | a failure envelope is unsuccessful, carries the given error, empty content and no usage |
| `Llm.Catches` | llm.py:96-130 | the `isinstance` tests of the four clauses follow the SDK hierarchy: whatever the rate-limit, timeout or `APIError` clause catches is in the `APIError` family, and `except Exception` catches every fault |
| `Llm.HandlerMessage` | llm.py:96-130 | the `APIError` clause's message is "API Error: " followed by the fault's text; the other clauses' fixed messages never start with "API Error: " and are non-empty |
| `Llm.IsBlank` | llm.py:71 | `not prompt or not prompt.strip()` holds exactly when the prompt is empty or all whitespace |
| `Llm.UserRequest` | llm.py:80-87 | the request holds exactly one message, with role "user" and the prompt as content |
| `Llm.FirstCatching` | llm.py:96-130 | the index of the first except clause that catches the fault: no earlier clause catches it |
| `Llm.Handle` | llm.py:96-130 | every fault ends in a failure envelope with empty content, no usage and an error message |
| `Llm.HandlingClause` | llm.py:96-130 | rate-limit, timeout, API and other errors are handled by clauses 1, 2, 3 and 4 respectively |
| `Llm.ReadCompletion` | llm.py:89-94 | reading the first choice succeeds exactly when a choice with content exists, and yields the stripped content and the reported usage; otherwise it raises a plain exception, or passes on the service's own exception |
| `Llm.GenerateResponse` | llm.py:53-130 | for every prompt and service: success iff no error; a failure has empty content and no usage; a success's content has no outer whitespace and is stable under strip; the "Prompt is empty." failure comes exactly from all-whitespace prompts |
| `Llm.BlankPromptSkipsService` | llm.py:71-77 | for an empty or all-whitespace prompt the result does not depend on the service and is the "Prompt is empty." failure |
| `Llm.ReplySucceeds` | llm.py:89-94 | a reply with text succeeds with the stripped text, no error, and exactly the usage the service reported |
| `Llm.MissingContentIsUnexpected` | llm.py:89-130 | a reply with no choices, or with no content in the first choice, ends in "Unexpected error occurred. Check logs." |
| `Llm.FaultMessages` | llm.py:96-130 | rate limit, timeout, API error and other exceptions map to their fixed messages, the API error as "API Error: " plus its text |
| `Llm.EarlierClausesWin` | llm.py:96-121 | rate-limit and timeout errors are also caught by the `APIError` clause, yet they get their own messages, not the API-error message |
| `Llm.FixedMessagesLackApiPrefix` | llm.py:71-130 | none of the fixed failure messages starts with "API Error: " |
| `Llm.ApiErrorMessageExactlyForApiError` | llm.py:114-121 | an error starting with "API Error: " occurs exactly when the prompt is not blank and the service raised a generic `APIError` |

## Left out

- Logging (`logging.basicConfig`, `logger.warning/error/exception`): I/O side effects that do not change any result.
- The `temperature`, `max_tokens` and `model` arguments: passed unchanged to the SDK call. `temperature` is a float. The request models only its message list.
- The SDK itself: `OpenAI(api_key=...)` is modelled as a `Client` value holding the key. `chat.completions.create` is the `service` parameter. `response.usage.model_dump()` is modelled as the `Usage` record itself.
- The module-level `client = get_openai_client()` (llm.py:46): the import fails exactly when `GetOpenAIClient` returns an error. `GenerateResponse` does not take the client; the `service` parameter stands for the call on it.
- Exceptions that are not `Exception` subclasses (such as `KeyboardInterrupt`) pass through `except Exception`; they are not modelled.
- Non-string values: the task and the prompt are strings; a secret is a string or missing. Python truthiness of other TOML value types is not modelled.
- `app.py` apart from the prompt table: Streamlit layout, the temperature slider and its deterministic-mode override (float UI state), the per-variant display loop, and `count_tokens` (from `Helpers`, which is not part of this model).

