# Deterministic startup-assessment chain, modelled in Dafny

This project models the core of a small Python service. The service asks a
language model for a JSON assessment of a startup, validates the answer
against a fixed schema, and keeps a short per-session conversation memory.
It models three pieces:

- **`ShortTermMemory`** (`src/memory.py`) holds, per session id, a bounded
  window of the most recent lines. It is the `Memory` module: a
  `ShortTermMemory` class whose `store` field maps session ids to windows.
  Pure functions on stores specify the class (`LastN`, `Push`, `AddTo`,
  `Touch`).
- **The schema** (`src/schemas.py`) and **`validate_output`**
  (`src/utils.py`).
  - `Schemas` holds the record types and `Validate`, the model of
    `StartupAssessment.model_validate` on a decoded JSON value (`JsonValues.Json`).
    `Validate` reports the failing keys in field order, each as a path plus
    a kind (missing, wrong type, invalid value). A failing
    `Union[int, str]` field is one error at its key (see "## Left out").
  - `SchemaLaws` gives `Validate` an independent description (`Conforms`
    and `Describes`) and an encoder `Encode`. It proves the two agree and
    that encoding then validating is the identity on well-formed records.
  - `Utils.ValidateOutput` is `validate_output`.
  - `Fixtures` proves the three examples of `src/tests/test_json_output.py`.
- **`DeterministicChain`** (`src/chain.py`), in the `Chain` module.
  - `SystemPrompt` and `UserPrompt` model `_build_system_prompt` and
    `_build_user_prompt`.
  - `Loop` is the retry loop of `run` as a function. It returns the answer,
    every `generate` request in order, the pauses between them and the
    summary kept on success.
  - The class `DeterministicChain` has `BuildUserPrompt`, `Attempt`
    (generate, parse, validate), `Retry` (the `while` loop) and `Run`. Each
    is proved against those functions.
  - `ChainScenarios` proves the runs of `src/tests/test_chain.py` and the two
    runs that end in failure for good.

The language model is a parameter `llm: (nat, Request) -> Outcome`. It is
called with the attempt number (1, 2, …) and the request (system prompt,
user prompt, temperature). It gives either text or a failure with a
message, so a mock with a fixed answer and a mock with a sequence of answers
are both instances of it. `json.loads` is a parameter `loads: string ->
Result<Json, string>`. Pauses (`time.sleep`) are recorded, in tenths of a
second, in the ghost output `sleeps`. The temperature 0.1 is the constant
`TEMPERATURE` = 1 tenth.

The schema accepts more than the output-format prompt asks the model for
(`src/prompts/output_format.py:9-36`). The model follows the schema code:

- An `invest` value outside {"yes", "no", "hold"} is coerced to "hold",
  where the prompt asks for "yes/no/hold". The comment at
  `src/schemas.py:30-31` says this coercion is used instead of raising.
- `founders_count` accepts any string (`SchemaLaws.FoundersCountKinds`),
  where the prompt asks for "int or 'unknown'".
- Every list field has a default and may be absent, where the prompt lists
  every sub-key.

`exceeded_retries` (`src/chain.py:114`) happens only when `max_retries` is
negative. Otherwise the last attempt always returns from inside the loop
(`Chain.LoopShape`).

## Model

| member | source | states |
|---|---|---|
| Memory.LastN | src/memory.py:7 | a window keeps at most `n` entries: its length is `min(|s|, n)` |
| Memory.Push | src/memory.py:9-10 | appending to a full deque drops the oldest entry: the result is the last `n` of `w + [t]` |
| Memory.Bounded | src/memory.py:7 | every window of a store holds at most `n` lines, the `maxlen` of its deques |
| Memory.Touch | src/memory.py:12-15 | reading an unseen session creates it (defaultdict) and changes no session's window |
| Memory.AddTo | src/memory.py:9-10 | `add` keeps every window within capacity, sets the session's window to the last `n` of the old window plus the new line, and leaves every other window unchanged |
| Memory.WindowOf | src/memory.py:7-15 | a session's window is its deque, or the empty deque the `defaultdict` makes for an unseen session; `Touch`, `AddTo` and `GetRecent` are stated through it |
| Memory.PushAll | src/memory.py:9-10 | successive `add` calls of several lines to one window; `PushAllKeepsLastN` states what they leave |
| Memory.PushAllKeepsLastN | src/memory.py:7-10 | adding lines one at a time leaves exactly the last `n` of all lines added |
| Memory.LastNKeepsTail | src/memory.py:7-10 | a deque with room for a run of lines ends with that run after they are appended |
| Memory.EvictsOldestFirst | src/memory.py:7-10 | adding `n + 1` lines to an empty window evicts exactly the first |
| Memory.AddToNewestLast | src/memory.py:9-10 | after `add`, the newest line is last and the rest are the previous window's last `n - 1` |
| Memory.ShortTermMemory.constructor | src/memory.py:5-7 | a new memory has the given capacity and no sessions |
| Memory.ShortTermMemory.Valid | src/memory.py:7 | the object's store is `Bounded` by its capacity; the constructor establishes it and `Add` and `GetRecent` keep it |
| Memory.ShortTermMemory.Add | src/memory.py:9-10 | the store becomes the old store with this session's window replaced by the last `maxLen` of the old window plus `text` |
| Memory.ShortTermMemory.GetRecent | src/memory.py:12-15 | `None` gives `[]` and changes nothing; a session id gives its window oldest first and creates an empty entry if it was unseen |
| Text.IsSpace | src/schemas.py:48 | the characters `str.isspace` accepts: space, tab to carriage return, U+001C to U+001F, next line (U+0085), and the Unicode space, line and paragraph separators; `TrimStart`, `TrimEnd` and `StripRemovesOnlySpace` say only these are removed |
| Text.TrimStart | src/schemas.py:48 | the result is a suffix of the input that does not start with whitespace, and only whitespace was removed |
| Text.TrimEnd | src/schemas.py:48 | the result is a prefix of the input that does not end with whitespace, and only whitespace was removed |
| Text.Strip | src/schemas.py:48 | `str.strip`: the result neither starts nor ends with whitespace |
| Text.StripEmptyIffAllSpace | src/schemas.py:48 | `v.strip()` is empty exactly when `v` is all whitespace |
| Text.StripRemovesOnlySpace | src/chain.py:31-34 | the stripped text is the slice of the input starting where the leading whitespace ends, and everything outside that slice is whitespace |
| Text.Join | src/chain.py:37 | `sep.join(parts)`: the parts in order with `sep` between neighbours; `JoinEnds`, `JoinSnoc`, `JoinCons` and `JoinSix` state this |
| Text.JoinEnds | src/chain.py:37 | `sep.join(parts)` is empty for no parts, and otherwise starts with the first part and ends with the last |
| Text.JoinSnoc | src/chain.py:44 | joining one more part appends the separator and that part |
| Text.JoinCons | src/chain.py:37 | one more part in front adds that part and the separator before the rest |
| Text.JoinSix | src/chain.py:37 | six parts are joined with the separator between each neighbouring pair |
| Schemas.NormalizeInvest | src/schemas.py:26-33 | the result is always allowed; allowed values are kept and every other value becomes "hold" |
| Schemas.NormalizeInvestIdempotent | src/schemas.py:26-33 | coercing twice is coercing once |
| Schemas.BlankSummary | src/schemas.py:48 | the summary validator's test `not v or len(v.strip()) == 0`; `BlankSummaryIffAllSpace` proves it holds exactly of all-whitespace strings |
| Schemas.BlankSummaryIffAllSpace | src/schemas.py:46-50 | the summary validator refuses exactly the empty or all-whitespace summaries |
| Schemas.RequiredStr | src/schemas.py:36 | a required string field succeeds exactly when present as a string, with that value; otherwise there is one error at that key, missing or wrong type |
| Schemas.ItemErrors | src/schemas.py:6 | a list reports no item errors exactly when every item from `from` on is a string; all errors are under its path |
| Schemas.Strings | src/schemas.py:6 | the strings of an all-string JSON array re-encode to that array |
| Schemas.StrList | src/schemas.py:6 | `List[str]` succeeds exactly on arrays of strings, giving their contents; otherwise the errors are non-empty and under its path |
| Schemas.OptionalStrList | src/schemas.py:6-7 | a defaulted list field is `[]` when absent and is validated as `List[str]` when present |
| Schemas.ValidateMarket | src/schemas.py:4-7 | a failing `Market` reports at least one error, all under the `market` path |
| Schemas.ValidateProduct | src/schemas.py:9-11 | a failing `Product` reports at least one error, all under its path |
| Schemas.ValidateBusinessModel | src/schemas.py:13-15 | a failing `BusinessModel` reports at least one error, all under its path |
| Schemas.FoundersCountField | src/schemas.py:18 | `Union[int, str]` accepts exactly an integer or a string, and keeps which; otherwise one error at the key |
| Schemas.ValidateTeam | src/schemas.py:17-20 | a failing `Team` reports at least one error, all under its path |
| Schemas.ValidateRecommendation | src/schemas.py:22-33 | a failing `Recommendation` reports errors under its path; an accepted one always has an allowed `invest` |
| Schemas.SummaryField | src/schemas.py:37 | the summary is accepted exactly when it is a present string that is not blank, and is kept unstripped |
| Schemas.MissingField | src/schemas.py:38-43 | an absent required nested record is one "missing" error at its key |
| Schemas.MarketField | src/schemas.py:38 | `market`: absent gives one "missing" error at the key, present is `Market` validated under that key; a failure always carries an error |
| Schemas.ProductField | src/schemas.py:39 | the same for `product` |
| Schemas.BusinessModelField | src/schemas.py:40 | the same for `business_model` |
| Schemas.TeamField | src/schemas.py:41 | the same for `team` |
| Schemas.RecommendationField | src/schemas.py:43 | the same for `recommendation` |
| Schemas.WellFormed | src/schemas.py:26-50 | what the two field validators guarantee of an accepted record: an allowed `invest` and a non-blank summary; `Validate`'s ensures and `EncodeValidateRoundTrip` are stated through it |
| Schemas.Validate | src/schemas.py:35-50 | an accepted record is well-formed (allowed `invest`, non-blank summary); a rejection carries at least one error |
| SchemaLaws.Encode | src/schemas.py:35-44 | the JSON form of a record is an object |
| SchemaLaws.MarketLaws | src/schemas.py:4-7 | `Market` validation succeeds exactly on conforming objects, and yields exactly the record the object describes |
| SchemaLaws.ProductLaws | src/schemas.py:9-11 | the same for `Product` |
| SchemaLaws.BusinessModelLaws | src/schemas.py:13-15 | the same for `BusinessModel` |
| SchemaLaws.TeamLaws | src/schemas.py:17-20 | the same for `Team` |
| SchemaLaws.RecommendationLaws | src/schemas.py:22-33 | the same for `Recommendation`, where the record holds the coerced `invest` |
| SchemaLaws.ValidateByFields | src/schemas.py:35-44 | a record validates exactly when each of its nine fields does, and is then built from the field results |
| SchemaLaws.ValidateSucceedsIffConforms | src/schemas.py:35-50 | validation succeeds exactly on inputs that conform to the schema |
| SchemaLaws.ValidateYieldsIffDescribes | src/schemas.py:35-50 | validation yields record `a` exactly when the input describes `a` and `a`'s summary is not blank |
| SchemaLaws.EncodeDescribes | src/schemas.py:35-44 | the JSON form of a record with an allowed `invest` describes that record |
| SchemaLaws.EncodeValidateRoundTrip | src/schemas.py:35-50 | validating the JSON form of a record gives that record back exactly when the record is well-formed |
| SchemaLaws.ValidateErrorsByFields | src/schemas.py:35-44 | the errors of a rejected object are the fields' errors, concatenated in field order |
| SchemaLaws.FieldErrorsReported | src/schemas.py:35-44 | any error of any one field makes the record fail and appears in its errors |
| SchemaLaws.MissingRequiredFieldNamed | src/schemas.py:36-43 | a missing required top-level field makes validation fail with a "missing" error at that key |
| SchemaLaws.MissingNestedFieldInRecord | src/schemas.py:5 | a missing required sub-key is reported by the field that owns it |
| SchemaLaws.MissingNestedFieldNamed | src/schemas.py:10-11 | a missing required sub-key makes validation fail with a "missing" error at the path outer/inner |
| SchemaLaws.BlankSummaryRejected | src/schemas.py:46-50 | an all-whitespace summary makes validation fail with an "invalid value" error at `summary` |
| SchemaLaws.EmptyBusinessModelAccepted | src/schemas.py:13-15 | an empty business model object is accepted with two empty lists |
| SchemaLaws.FoundersCountKinds | src/schemas.py:18 | `founders_count` accepts exactly integers and strings: 2, "unknown" and also "many" are accepted |
| Utils.ValidateOutput | src/utils.py:5-22 | the flag is true exactly when validation succeeds; the second value is then the record, and otherwise the non-empty error list |
| Fixtures.AcmeWellFormed | src/tests/test_json_output.py:5-32 | the record of VALID_EXAMPLE is well-formed |
| Fixtures.AcmeSummaryNotBlank | src/tests/test_json_output.py:7 | the summary of VALID_EXAMPLE, shared by VALID_JSON_STR, is not blank |
| Fixtures.ValidExampleEncodesAcme | src/tests/test_json_output.py:5-32 | VALID_EXAMPLE, written out key by key, is the JSON form of its record |
| Fixtures.ValidExampleAccepted | src/tests/test_json_output.py:61-65 | VALID_EXAMPLE validates to its record, whose name is "Acme Market" |
| Fixtures.InvalidExampleRecords | src/tests/test_json_output.py:34-43 | the nested records of INVALID_EXAMPLE validate, and its "maybe" becomes "hold" |
| Fixtures.InvalidExampleMissing | src/tests/test_json_output.py:34-43 | INVALID_EXAMPLE lacks `summary` and `market` |
| Fixtures.InvalidExampleScalars | src/tests/test_json_output.py:34-43 | the name and the two lists of INVALID_EXAMPLE raise no errors |
| Fixtures.InvalidExampleNested | src/tests/test_json_output.py:34-43 | the nested fields of INVALID_EXAMPLE raise no errors |
| Fixtures.InvalidExampleRejected | src/tests/test_json_output.py:67-71 | INVALID_EXAMPLE fails with exactly two errors, missing `summary` then missing `market` |
| Fixtures.PartialWellFormed | src/tests/test_json_output.py:45-59 | the record of PARTIAL_EXAMPLE is well-formed |
| Fixtures.PartialExampleEncodesPartial | src/tests/test_json_output.py:45-59 | PARTIAL_EXAMPLE, written out key by key, is the JSON form of its record |
| Fixtures.PartialExampleAccepted | src/tests/test_json_output.py:73-76 | PARTIAL_EXAMPLE validates, with `founders_count` the string "unknown" |
| Chain.SystemParts | src/chain.py:29-36 | the six parts in order: the begin marker, the stripped role, behaviour, style and output-format prompts, the end marker; `SystemPromptLayout` states their join |
| Chain.UserBlock | src/chain.py:46-49 | "USER_INPUT:", the input, a blank line and the instructions; `UserPromptLayout` proves every user prompt ends with it |
| Chain.SystemPrompt | src/chain.py:28-37 | `_build_system_prompt`: the six parts joined by blank lines; its layout is `SystemPromptLayout` |
| Chain.MemoryText | src/chain.py:40-44 | the recalled-memory block: empty without entries, otherwise the header, one bullet line per entry and a blank line; stated by `MemoryTextSnoc`, `Bullets` and `UserPromptLayout` |
| Chain.UserPrompt | src/chain.py:39-50 | `_build_user_prompt` for recalled entries: the memory block then the user block; its layout is `UserPromptLayout` |
| Chain.Truthy | src/chain.py:41 | `if session_id:`: `None` and the empty string are false, every other string true |
| Chain.Recent | src/chain.py:41-42 | the entries `_build_user_prompt` recalls: the session's window for a truthy session id, otherwise none |
| Chain.Recall | src/chain.py:41-42 | the store after that recall: `get_recent` touches the session only for a truthy session id; `StoreAfterRun` keeps every window as it was |
| Chain.SystemPromptLayout | src/chain.py:28-37 | the system prompt is the begin marker, the four stripped prompts and the end marker, separated by blank lines, in that order |
| Chain.Bullets | src/chain.py:44 | there is one bullet per memory entry, in order, each "- " then the entry |
| Chain.UserPromptLayout | src/chain.py:39-50 | the user prompt always ends with the user block; it equals the user block exactly when no entries were recalled; otherwise it starts with the memory header and the first entry's bullet |
| Chain.MemoryTextSnoc | src/chain.py:44 | one more entry adds a newline and its bullet at the end of the memory block |
| Chain.Classify | src/chain.py:61-100 | an attempt is a generation error exactly when `generate` raised; not JSON exactly when decoding failed; rejected with the non-empty validation errors; or accepted with the decoded value and its well-formed record |
| Chain.Correction | src/chain.py:82-108 | the text put in front of the user prompt before a retry: the strict-JSON reminder after unparsable text (82-86), the validation reminder after a rejected object (104-108), nothing after a generator error; `LoopUserPrompts` states its use |
| Chain.Backoff | src/chain.py:71-109 | the pause before a retry, in tenths of a second: 5 × attempt after a generator error (71), 2 × attempt otherwise (87, 109); `LoopSleeps` states its use |
| Chain.RawOf | src/chain.py:68-75 | `last_raw_output` after a call: the generator's text, or "LLM generation error: " then the error message |
| Chain.FinalFailure | src/chain.py:73-112 | the error object of a failed last attempt: `llm_call_failed` with the message and attempt (73), `invalid_json` with the raw text and detail (90), `validation_failed` with the errors and raw text (112); `LoopFailsLast` states its use |
| Chain.SummaryText | src/chain.py:96 | the summary kept on success: the decoded `summary` when it is a string, else ""; `AcceptedSummary` proves it is the record's summary |
| Chain.Loop | src/chain.py:56-114 | the retry loop from a given attempt, giving the answer, the requests, the pauses and the summary; its laws are `LoopShape`, `LoopConstantArguments`, `LoopUserPrompts`, `LoopKeepsUserPrompt`, `LoopSleeps`, `LoopRetries`, `LoopAcceptedLast` and `LoopFailsLast`, and `DeterministicChain.Retry` is proved to follow it |
| Chain.RunTrace | src/chain.py:52-114 | `run`: the loop from attempt 0 on the system prompt and the user prompt of the recalled entries; `DeterministicChain.Run` is proved to follow it |
| Chain.LoopShape | src/chain.py:56-60 | a loop with attempts left makes between 1 and `max_retries + 1` calls, pauses once fewer times than it calls, and never ends in `exceeded_retries`; with none left it ends at once in `exceeded_retries` |
| Chain.LoopConstantArguments | src/chain.py:62-66 | every call gets the same system prompt and temperature 0.1 |
| Chain.LoopUserPrompts | src/chain.py:80-110 | the first call gets the built user prompt; each later call gets the previous prompt behind the correction for the previous failed step |
| Chain.LoopKeepsUserPrompt | src/chain.py:82-86 | the built user prompt is a suffix of every user prompt sent |
| Chain.LoopSleeps | src/chain.py:67-112 | each pause is 0.5 s × attempt after a generation error and 0.2 s × attempt otherwise |
| Chain.LoopAcceptedLast | src/chain.py:93-100 | an accepted last step returns its record and keeps its summary |
| Chain.LoopFailsLast | src/chain.py:73-112 | a loop whose last step fails made its last call on attempt `max_retries + 1` and returns that step's error object |
| Chain.LoopRetries | src/chain.py:80-110 | a step that fails with attempts left contributes its own call and its back-off pause, then the loop goes on from the next attempt, which makes at least one more call and decides the answer |
| Chain.PrependKeepsSuffix | src/chain.py:82-86 | putting a correction in front of a prompt keeps whatever the prompt ended with |
| Chain.AcceptedSummary | src/chain.py:96 | after a validated answer, the summary kept is the record's own summary |
| Chain.StoreAfterRun | src/chain.py:95-99 | memory stays within capacity, and a failed run, or a run without a truthy session id, changes no window |
| Chain.SuccessfulRunRemembers | src/chain.py:95-99 | a successful run with a session id appends the user line then the summary line to that session's window, within capacity; other windows are unchanged |
| Chain.SuccessfulRunNewestEntries | src/chain.py:97-99 | with capacity at least 2, those two lines are the newest two entries of the window |
| Chain.DeterministicChain.constructor | src/chain.py:23-26 | the chain keeps the client, the memory and the retry budget, by default 2 |
| Chain.DeterministicChain.BuildUserPrompt | src/chain.py:39-50 | the prompt is the user prompt for the recalled entries, and memory is read only for a truthy session id |
| Chain.DeterministicChain.Attempt | src/chain.py:61-100 | one attempt calls `generate` once and ends as `Classify` says |
| Chain.DeterministicChain.Retry | src/chain.py:56-114 | the loop's answer, requests, pauses and summary are those of `Loop` from attempt 0 |
| Chain.DeterministicChain.Run | src/chain.py:52-114 | `run` returns `(ok, payload)`, with `ok` true exactly on success, as `RunTrace` describes, and leaves memory as `StoreAfterRun` describes |
| ChainScenarios.TestAcmeWellFormed | src/tests/test_chain.py:6-30 | the record of VALID_JSON_STR is well-formed |
| ChainScenarios.EncodedAccepted | src/chain.py:93-96 | an answer decoding to the JSON form of a well-formed record is accepted with that record and that summary |
| ChainScenarios.Always | src/models.py:11-20 | `MockClient(response_text)`: every call gives the same answer, whatever the request |
| ChainScenarios.FirstAccepted | src/chain.py:93-100 | an accepted first answer makes one call and no pause |
| ChainScenarios.SecondAccepted | src/chain.py:80-100 | a failed first answer followed by an accepted one makes two calls, the second behind the correction, with one pause |
| ChainScenarios.PersistentFailure | src/chain.py:67-112 | an answer that is never accepted uses every attempt left, with the same correction and back-off each time, and ends in that step's error at attempt `max_retries + 1` |
| ChainScenarios.ThreeFailures | src/chain.py:16 | with the default budget that is three calls and two pauses |
| ChainScenarios.ChainSuccess | src/tests/test_chain.py:32-42 | a constant valid answer gives its record in one call, and memory of capacity 4 holds exactly the user line and the summary line |
| ChainScenarios.ChainSuccessRun | src/tests/test_chain.py:32-42 | the same on the object: `run` succeeds with name "Acme Market" and `get_recent("test")` returns the two lines |
| ChainScenarios.NotJsonThen | src/tests/test_chain.py:47-54 | `SequenceMock(["not-json", raw])`: the first call answers "not-json", every later call `raw`, as its index stops at the last answer |
| ChainScenarios.InvalidJsonThenValid | src/tests/test_chain.py:44-61 | "not-json" then a valid answer succeeds on the second call, which carries the strict-JSON reminder, after a pause of 0.2 s |
| ChainScenarios.NotJsonClassified | src/chain.py:77-80 | an answer the decoder refuses is classified as not JSON, with the decoder's message |
| ChainScenarios.ThreeNotJson | src/chain.py:80-90 | with the default budget an answer that never parses is sent three times, with pauses of 0.2 s and 0.4 s, and ends in `invalid_json` |
| ChainScenarios.AlwaysInvalidJson | src/chain.py:80-90 | three unparsable answers end in `invalid_json`, after pauses of 0.2 s and 0.4 s and with two reminders on the last prompt |
| ChainScenarios.AlwaysGenerationError | src/chain.py:67-73 | a client that always raises ends in `llm_call_failed` on attempt 3, after pauses of 0.5 s and 1.0 s, with the prompt unchanged |

## Left out

- The web UI (`app/gradio_app.py`) is not part of this model.
- `src/models.py`: the language-model clients are the `llm` parameter. It is a function of the attempt number and the request, which covers the fixed-answer and the answer-sequence mocks of the tests. A provider client that is not a function of these is not modelled.
- Prompt wording (`src/prompts/*.py`): the four prompt texts are unspecified constants. Only how they are stripped and joined is modelled.
- `json.loads` is a parameter. JSON text syntax, and the text of parse error messages, are not modelled.
- Exceptions: the messages of decoding and generation errors are kept as strings. `str(model_or_err)` of a validation error is kept as a list of field errors, each a path and a kind, not as pydantic's message text.
- Schemas.FoundersCountField: a `founders_count` that is present but neither an integer nor a string (null, an array, an object) is reported as one wrong-type error at `team/founders_count`. Pydantic reports one error per union member there (`team.founders_count.int` and `team.founders_count.str`). The model keeps one error per failing key; the error count and these sub-paths are not modelled.
- Pydantic's lax coercions are left out. Numbers parsed from strings, booleans accepted as integers, and floats are not modelled: only the JSON kinds string, integer, array and object are distinguished for these fields. Extra keys are ignored, as pydantic ignores them.
- `time.sleep` is not performed. Pauses are only recorded, in tenths of a second.
- The temperature 0.1 is kept as the integer 1 (tenths), because floating point is left out.
- Concurrency: each run is sequential, and memory is not modelled under concurrent use.
- A negative `max_len` for `ShortTermMemory`: Python's `deque` would raise. The model's capacity is a `nat`.
- The unused `ChainError` class is not modelled.
- Chain.DeterministicChain.Run: the memory update on success is made after the retry loop returns, not inside it. The two orders are equivalent, because nothing happens between them.
