/**
 * `DeterministicChain` of src/chain.py: prompt assembly and the bounded
 * generate / parse / validate retry loop, with the session memory updated only
 * after a validated answer.
 *
 * The LLM client is a `Generator`: the text or error it produces for a call,
 * given the attempt number and the request. `json.loads` is a `Decoder`. The
 * loop is specified by the function `Loop`, which also records the requests
 * sent and the back-off delays; the method `DeterministicChain.Run` is proved
 * to follow it.
 */
module Chain {
  import opened Wrappers
  import opened Text
  import opened JsonValues
  import opened Schemas
  import opened Utils
  import opened Memory
  import opened Prompts
  import SchemaLaws

  /** The default number of retries after the first attempt. */
  const MAX_RETRIES: int := 2
  /** The sampling temperature 0.1, in tenths. */
  const TEMPERATURE: nat := 1

  const SYSTEM_BEGIN: string := "SYSTEM: Begin system instructions."
  const SYSTEM_END: string := "SYSTEM: End system instructions."

  /** Prepended to the user prompt after an answer that is not JSON. */
  const STRICT_JSON_PREFIX: string :=
    "Return STRICT JSON matching the schema from system instructions. Do not include any explanation or commentary\U{2014}only the JSON object.\n\n"

  /** Prepended to the user prompt after an answer that fails the schema. */
  const VALIDATION_PREFIX: string :=
    "Validation failed. Return STRICT JSON matching the schema exactly. Do not include any text outside the JSON object.\n\n"

  // ------------------------------------------------------------ prompts

  function SystemParts(): seq<string>
  {
    [SYSTEM_BEGIN, Strip(ROLE_PROMPT), Strip(BEHAVIOR_PROMPT), Strip(STYLE_PROMPT),
     Strip(OUTPUT_FORMAT_PROMPT), SYSTEM_END]
  }

  /** `_build_system_prompt`. */
  function SystemPrompt(): string
  {
    Join("\n\n", SystemParts())
  }

  /** The system prompt is the begin marker, the four stripped prompts in
      order and the end marker, separated by blank lines. */
  lemma SystemPromptLayout()
    ensures SystemPrompt()
         == SYSTEM_BEGIN + "\n\n" + (Strip(ROLE_PROMPT) + "\n\n" + (Strip(BEHAVIOR_PROMPT)
            + "\n\n" + (Strip(STYLE_PROMPT) + "\n\n" + (Strip(OUTPUT_FORMAT_PROMPT)
            + "\n\n" + SYSTEM_END))))
  {
    JoinSix("\n\n", SYSTEM_BEGIN, Strip(ROLE_PROMPT), Strip(BEHAVIOR_PROMPT), Strip(STYLE_PROMPT),
            Strip(OUTPUT_FORMAT_PROMPT), SYSTEM_END);
  }

  const USER_INPUT_HEADER: string := "USER_INPUT:\n"
  const INSTRUCTIONS_TRAILER: string :=
    "\n\nINSTRUCTIONS:\nReturn only the JSON following the schema in the system instructions."
  const MEMORY_HEADER: string := "RECENT_CONVERSATION:\n"
  const BULLET: string := "- "

  /** The `USER_INPUT` / `INSTRUCTIONS` block that ends every user prompt. */
  function UserBlock(userInput: string): string
  {
    USER_INPUT_HEADER + userInput + INSTRUCTIONS_TRAILER
  }

  /** One bullet line per memory entry, in memory order. */
  function Bullets(entries: seq<string>): (r: seq<string>)
    ensures |r| == |entries|
    ensures forall i :: 0 <= i < |entries| ==> r[i] == BULLET + entries[i]
  {
    seq(|entries|, i requires 0 <= i < |entries| => BULLET + entries[i])
  }

  /** The `RECENT_CONVERSATION` block; empty when there is nothing to recall. */
  function MemoryText(entries: seq<string>): string
  {
    if entries == [] then ""
    else MEMORY_HEADER + Join("\n", Bullets(entries)) + "\n\n"
  }

  /** `_build_user_prompt` once the memory entries are known. */
  function UserPrompt(userInput: string, entries: seq<string>): string
  {
    MemoryText(entries) + UserBlock(userInput)
  }

  /** `if session_id:` -- `None` and the empty string are false. */
  predicate Truthy(sessionId: Option<string>)
  {
    sessionId.Some? && sessionId.value != ""
  }

  /** The memory entries `_build_user_prompt` recalls. */
  function Recent(store: Store, sessionId: Option<string>): seq<string>
  {
    if Truthy(sessionId) then WindowOf(store, sessionId.value) else []
  }

  /** The store after `_build_user_prompt`: `get_recent` is called only for a
      truthy session, and may create that session's empty window. */
  function Recall(store: Store, sessionId: Option<string>): Store
  {
    if Truthy(sessionId) then Touch(store, sessionId.value) else store
  }

  /** `suffix` is a suffix of `s`. */
  predicate EndsWith(s: string, suffix: string)
  {
    |suffix| <= |s| && s[|s| - |suffix|..] == suffix
  }

  /** Putting text in front keeps every suffix. */
  lemma PrependKeepsSuffix(c: string, u: string, suffix: string)
    requires EndsWith(u, suffix)
    ensures EndsWith(c + u, suffix)
  {
    assert (c + u)[|c + u| - |suffix|..] == u[|u| - |suffix|..];
  }

  /** The user prompt ends with the user block; the memory block is there
      exactly when there are entries, and then starts with the
      `RECENT_CONVERSATION` header and the oldest entry's bullet. */
  lemma UserPromptLayout(userInput: string, entries: seq<string>)
    ensures EndsWith(UserPrompt(userInput, entries), UserBlock(userInput))
    ensures UserPrompt(userInput, entries) == UserBlock(userInput) <==> entries == []
    ensures entries != [] ==> MEMORY_HEADER + BULLET + entries[0] <= UserPrompt(userInput, entries)
  {
    var m := MemoryText(entries);
    var u := UserPrompt(userInput, entries);
    assert u[|m|..] == UserBlock(userInput);
    if entries != [] {
      assert MEMORY_HEADER[0] == 'R';
      var b := Bullets(entries);
      var j := Join("\n", b);
      assert BULLET + entries[0] <= j;
      assert m == MEMORY_HEADER + j + "\n\n";
      assert (MEMORY_HEADER + BULLET + entries[0]) <= MEMORY_HEADER + j;
      assert |u| > |UserBlock(userInput)|;
    }
  }

  /** A newer entry adds one more line at the end of the memory block. */
  lemma MemoryTextSnoc(entries: seq<string>, m: string)
    requires entries != []
    ensures MemoryText(entries + [m])
         == MEMORY_HEADER + (Join("\n", Bullets(entries)) + "\n" + (BULLET + m)) + "\n\n"
  {
    var e := entries + [m];
    var b := Bullets(entries);
    var b' := Bullets(e);
    assert |b'| == |b + [BULLET + m]|;
    forall i | 0 <= i < |b'|
      ensures b'[i] == (b + [BULLET + m])[i]
    {
      if i < |b| {
        assert e[i] == entries[i];
      }
    }
    assert b' == b + [BULLET + m];
    JoinSnoc("\n", b, BULLET + m);
    assert MemoryText(e) == MEMORY_HEADER + Join("\n", b') + "\n\n";
  }

  // ------------------------------------------------------------ the loop

  /** What one `generate` call gives: the text, or the message of the
      exception it raised. */
  datatype Outcome = Text(raw: string) | Failed(message: string)

  /** The arguments of one `generate` call. */
  datatype Request = Request(system: string, user: string, temperature: nat)

  /** The LLM client: its outcome for the given attempt number and request. */
  type Generator = (nat, Request) -> Outcome

  /** `json.loads`: the decoded value, or the message of its exception. */
  type Decoder = string -> Result<Json, string>

  /** The second component of `run`'s result: the validated record, or one of
      the four error objects (`llm_call_failed`, `invalid_json`,
      `validation_failed`, `exceeded_retries`). */
  datatype Payload =
    | Assessment(value: StartupAssessment)
    | LlmCallFailed(detail: string, attempt: nat)
    | InvalidJson(raw: string, detail: string)
    | ValidationFailed(validation: Errors, raw: string)
    | ExceededRetries(lastOutput: Option<string>)

  /** How one attempt ended. */
  datatype Step =
    | GenerationError(message: string)
    | NotJson(raw: string, detail: string)
    | Rejected(raw: string, errors: Errors)
    | Accepted(parsed: Json, assessment: StartupAssessment)

  /** How the outcome of a call is judged; `run` uses `Classify` with
      `json.loads`. The loop and its laws hold for any judgement. */
  type Classifier = Outcome -> Step

  /** Parse, then validate, the outcome of one call. */
  function Classify(o: Outcome, loads: Decoder): (s: Step)
    ensures s.GenerationError? <==> o.Failed?
    ensures s.NotJson? <==> o.Text? && loads(o.raw).Failure?
    ensures s.NotJson? ==> s.raw == o.raw && s.detail == loads(o.raw).error
    ensures s.Rejected? ==>
              && s.raw == o.raw && loads(o.raw).Success?
              && Validate(loads(o.raw).value) == Failure(s.errors) && s.errors != []
    ensures s.Accepted? ==>
              && o.Text? && loads(o.raw) == Success(s.parsed)
              && Validate(s.parsed) == Success(s.assessment) && WellFormed(s.assessment)
  {
    match o
    case Failed(m) => GenerationError(m)
    case Text(raw) =>
      match loads(raw)
      case Failure(detail) => NotJson(raw, detail)
      case Success(parsed) =>
        var (ok, result) := ValidateOutput(parsed);
        if ok then Accepted(parsed, result.assessment) else Rejected(raw, result.errors)
  }

  /** `Classify` with the decoder `run` uses. */
  function ClassifierOf(loads: Decoder): Classifier
  {
    (o: Outcome) => Classify(o, loads)
  }

  /** The prefix a failed attempt puts before the next user prompt; `run`
      uses `Correction`. */
  type Corrector = Step -> string

  /** The prefix a failed attempt puts before the user prompt of the next one. */
  function Correction(s: Step): string
  {
    match s
    case NotJson(_, _) => STRICT_JSON_PREFIX
    case Rejected(_, _) => VALIDATION_PREFIX
    case _ => ""
  }

  /** The pause before the next attempt, in tenths of a second: `0.5 * attempt`
      after a generator error, `0.2 * attempt` otherwise. */
  function Backoff(s: Step, attempt: nat): nat
  {
    if s.GenerationError? then 5 * attempt else 2 * attempt
  }

  const GENERATION_ERROR_PREFIX: string := "LLM generation error: "

  /** `last_raw_output` after a call. */
  function RawOf(o: Outcome): string
  {
    match o
    case Text(raw) => raw
    case Failed(m) => GENERATION_ERROR_PREFIX + m
  }

  /** The error object returned when the last attempt fails. */
  function FinalFailure(s: Step, attempt: nat): Payload
    requires !s.Accepted?
  {
    match s
    case GenerationError(m) => LlmCallFailed(m, attempt)
    case NotJson(raw, detail) => InvalidJson(raw, detail)
    case Rejected(raw, errors) => ValidationFailed(errors, raw)
  }

  /** `parsed.get("summary", "")` when that is a string, else `""`. */
  function SummaryText(parsed: Json): string
  {
    if parsed.JObj? && "summary" in parsed.fields && parsed.fields["summary"].JStr?
    then parsed.fields["summary"].s
    else ""
  }

  /** A run: its answer, the `generate` calls in order, the pauses between
      them, and the summary that goes into memory on success. */
  datatype Trace = Trace(payload: Payload, requests: seq<Request>, sleeps: seq<nat>, summary: string)

  /** The loop of `run` from the point where `attempt` calls have been made,
      `user` is the current user prompt and `lastRaw` the last raw output. */
  function Loop(llm: Generator, classify: Classifier, correct: Corrector, maxRetries: int, system: string,
                user: string, attempt: nat, lastRaw: Option<string>): Trace
    decreases maxRetries - attempt
  {
    if attempt > maxRetries then Trace(ExceededRetries(lastRaw), [], [], "")
    else
      var n := attempt + 1;
      var req := Request(system, user, TEMPERATURE);
      var out := llm(n, req);
      var step := classify(out);
      if step.Accepted? then
        Trace(Assessment(step.assessment), [req], [], SummaryText(step.parsed))
      else if n <= maxRetries then
        var rest := Loop(llm, classify, correct, maxRetries, system, correct(step) + user, n, Some(RawOf(out)));
        Trace(rest.payload, [req] + rest.requests, [Backoff(step, n)] + rest.sleeps, rest.summary)
      else
        Trace(FinalFailure(step, n), [req], [], "")
  }

  /** `run(user_input, session_id)` on a memory whose recalled entries are
      `entries`. */
  function RunTrace(llm: Generator, loads: Decoder, maxRetries: int,
                    userInput: string, entries: seq<string>): Trace
  {
    Loop(llm, ClassifierOf(loads), Correction, maxRetries, SystemPrompt(), UserPrompt(userInput, entries), 0, None)
  }

  /** The step of the `i`-th call of a trace that starts after `attempt` calls. */
  function StepAt(llm: Generator, classify: Classifier, t: Trace, attempt: nat, i: nat): Step
    requires i < |t.requests|
  {
    classify(llm(attempt + i + 1, t.requests[i]))
  }

  /** The prefixes of the two lines a successful run adds to memory. */
  const USER_TAG: string := "USER: "
  const SUMMARY_TAG: string := "ASSISTANT_SUMMARY: "

  /** The store after `run`: the recall of `_build_user_prompt`, then, only on
      success and for a truthy session, the user line and the summary line. */
  function StoreAfterRun(store: Store, sessionId: Option<string>, userInput: string,
                         t: Trace, n: nat): (r: Store)
    requires Bounded(store, n)
    ensures Bounded(r, n)
    ensures !t.payload.Assessment? || !Truthy(sessionId) ==>
              forall k :: WindowOf(r, k) == WindowOf(store, k)
  {
    var s := Recall(store, sessionId);
    assert Bounded(s, n) by {
      forall k | k in s ensures |s[k]| <= n {
        assert WindowOf(s, k) == WindowOf(store, k);
      }
    }
    if t.payload.Assessment? && Truthy(sessionId) then
      var k := sessionId.value;
      AddTo(AddTo(s, k, USER_TAG + userInput, n), k, SUMMARY_TAG + t.summary, n)
    else s
  }

  // ------------------------------------------------------------ laws of the loop

  /** Attempts `attempt + 1` up to `maxRetries + 1` at most, one pause between
      consecutive calls and none after the last; `exceeded_retries` exactly
      when no call is left to make. */
  lemma {:induction false} LoopShape(llm: Generator, classify: Classifier, correct: Corrector, maxRetries: int, system: string,
                                     user: string, attempt: nat, lastRaw: Option<string>)
    ensures var t := Loop(llm, classify, correct, maxRetries, system, user, attempt, lastRaw);
            && (attempt > maxRetries ==>
                  t.requests == [] && t.sleeps == [] && t.payload == ExceededRetries(lastRaw))
            && (attempt <= maxRetries ==>
                  && 1 <= |t.requests| <= maxRetries + 1 - attempt
                  && |t.sleeps| == |t.requests| - 1
                  && !t.payload.ExceededRetries?)
    decreases maxRetries - attempt
  {
    if attempt <= maxRetries {
      var n := attempt + 1;
      var req := Request(system, user, TEMPERATURE);
      var step := classify(llm(n, req));
      if !step.Accepted? && n <= maxRetries {
        LoopShape(llm, classify, correct, maxRetries, system, correct(step) + user, n, Some(RawOf(llm(n, req))));
      }
    }
  }

  /** Every call gets the same system prompt and the constant temperature. */
  lemma {:induction false} LoopConstantArguments(llm: Generator, classify: Classifier, correct: Corrector, maxRetries: int,
                                                 system: string, user: string, attempt: nat,
                                                 lastRaw: Option<string>)
    ensures var t := Loop(llm, classify, correct, maxRetries, system, user, attempt, lastRaw);
            forall i :: 0 <= i < |t.requests| ==>
              t.requests[i].system == system && t.requests[i].temperature == TEMPERATURE
    decreases maxRetries - attempt
  {
    if attempt <= maxRetries {
      var n := attempt + 1;
      var req := Request(system, user, TEMPERATURE);
      var step := classify(llm(n, req));
      if !step.Accepted? && n <= maxRetries {
        var rest := Loop(llm, classify, correct, maxRetries, system, correct(step) + user, n, Some(RawOf(llm(n, req))));
        LoopConstantArguments(llm, classify, correct, maxRetries, system, correct(step) + user, n,
                              Some(RawOf(llm(n, req))));
        var t := Loop(llm, classify, correct, maxRetries, system, user, attempt, lastRaw);
        assert t.requests == [req] + rest.requests;
        assert var t' := Loop(llm, classify, correct, maxRetries, system, correct(step) + user, n, Some(RawOf(llm(n, req))));
            forall i :: 0 <= i < |t'.requests| ==>
              t'.requests[i].system == system && t'.requests[i].temperature == TEMPERATURE;
        assert forall i :: 0 <= i < |rest.requests| ==> rest.requests[i].system == system;
        forall i | 1 <= i < |t.requests|
          ensures t.requests[i] == rest.requests[i - 1]
        {
        }
      } else {
        assert Loop(llm, classify, correct, maxRetries, system, user, attempt, lastRaw).requests == [req];
      }
    }
  }

  /** The first call gets `user`; each later one gets the previous prompt
      behind the correction for the previous step (nothing after a generator
      error), after a step that was not accepted. */
  lemma {:induction false} LoopUserPrompts(llm: Generator, classify: Classifier, correct: Corrector, maxRetries: int,
                                           system: string, user: string, attempt: nat,
                                           lastRaw: Option<string>)
    ensures var t := Loop(llm, classify, correct, maxRetries, system, user, attempt, lastRaw);
            && (t.requests != [] ==> t.requests[0].user == user)
            && (forall i :: 0 <= i < |t.requests| - 1 ==>
                  && t.requests[i + 1].user
                     == correct(StepAt(llm, classify, t, attempt, i)) + t.requests[i].user
                  && !StepAt(llm, classify, t, attempt, i).Accepted?)
    decreases maxRetries - attempt
  {
    var t := Loop(llm, classify, correct, maxRetries, system, user, attempt, lastRaw);
    if attempt <= maxRetries {
      var n := attempt + 1;
      var req := Request(system, user, TEMPERATURE);
      var out := llm(n, req);
      var step := classify(out);
      if !step.Accepted? && n <= maxRetries {
        var user' := correct(step) + user;
        var rest := Loop(llm, classify, correct, maxRetries, system, user', n, Some(RawOf(out)));
        LoopUserPrompts(llm, classify, correct, maxRetries, system, user', n, Some(RawOf(out)));
        LoopShape(llm, classify, correct, maxRetries, system, user', n, Some(RawOf(out)));
        assert t.requests == [req] + rest.requests;
        forall i | 0 <= i < |t.requests| - 1
          ensures t.requests[i + 1].user
                  == correct(StepAt(llm, classify, t, attempt, i)) + t.requests[i].user
          ensures !StepAt(llm, classify, t, attempt, i).Accepted?
        {
          if i > 0 {
            assert t.sleeps[i] == rest.sleeps[i - 1];
            assert StepAt(llm, classify, t, attempt, i) == StepAt(llm, classify, rest, n, i - 1);
          }
        }
      }
    }
  }

  /** Hence `user` is a suffix of every user prompt sent. */
  lemma {:induction false} LoopKeepsUserPrompt(llm: Generator, classify: Classifier, correct: Corrector, maxRetries: int,
                                               system: string, user: string, attempt: nat,
                                               lastRaw: Option<string>)
    ensures var t := Loop(llm, classify, correct, maxRetries, system, user, attempt, lastRaw);
            forall i :: 0 <= i < |t.requests| ==> EndsWith(t.requests[i].user, user)
  {
    var t := Loop(llm, classify, correct, maxRetries, system, user, attempt, lastRaw);
    LoopUserPrompts(llm, classify, correct, maxRetries, system, user, attempt, lastRaw);
    var i := 0;
    while i < |t.requests|
      invariant i <= |t.requests|
      invariant forall j :: 0 <= j < i ==> EndsWith(t.requests[j].user, user)
    {
      if i > 0 {
        var u := t.requests[i - 1].user;
        PrependKeepsSuffix(correct(StepAt(llm, classify, t, attempt, i - 1)), u, user);
      } else {
        assert EndsWith(t.requests[0].user, user);
      }
      i := i + 1;
    }
  }

  /** Each pause is the back-off of the step before it, at that attempt. */
  lemma {:induction false} LoopSleeps(llm: Generator, classify: Classifier, correct: Corrector, maxRetries: int,
                                      system: string, user: string, attempt: nat,
                                      lastRaw: Option<string>)
    ensures var t := Loop(llm, classify, correct, maxRetries, system, user, attempt, lastRaw);
            forall i :: 0 <= i < |t.sleeps| ==>
              && i < |t.requests|
              && t.sleeps[i] == Backoff(StepAt(llm, classify, t, attempt, i), attempt + i + 1)
    decreases maxRetries - attempt
  {
    var t := Loop(llm, classify, correct, maxRetries, system, user, attempt, lastRaw);
    if attempt <= maxRetries {
      var n := attempt + 1;
      var req := Request(system, user, TEMPERATURE);
      var out := llm(n, req);
      var step := classify(out);
      if !step.Accepted? && n <= maxRetries {
        var user' := correct(step) + user;
        var rest := Loop(llm, classify, correct, maxRetries, system, user', n, Some(RawOf(out)));
        LoopSleeps(llm, classify, correct, maxRetries, system, user', n, Some(RawOf(out)));
        LoopShape(llm, classify, correct, maxRetries, system, user', n, Some(RawOf(out)));
        assert t.requests == [req] + rest.requests;
        assert t.sleeps == [Backoff(step, n)] + rest.sleeps;
        forall i | 0 <= i < |t.sleeps|
          ensures i < |t.requests|
          ensures t.sleeps[i] == Backoff(StepAt(llm, classify, t, attempt, i), attempt + i + 1)
        {
          if i > 0 {
            assert StepAt(llm, classify, t, attempt, i) == StepAt(llm, classify, rest, n, i - 1);
          }
        }
      }
    }
  }

  /** One retry of the loop: a first step that is neither accepted nor the
      last allowed puts its call and its pause in front of the rest of the
      loop, which makes at least one call, and the steps after the first are
      those of the rest. */
  lemma LoopRetries(llm: Generator, classify: Classifier, correct: Corrector, maxRetries: int,
                    system: string, user: string, attempt: nat, lastRaw: Option<string>)
    requires attempt + 1 <= maxRetries
    requires !classify(llm(attempt + 1, Request(system, user, TEMPERATURE))).Accepted?
    ensures var req := Request(system, user, TEMPERATURE);
            var out := llm(attempt + 1, req);
            var t := Loop(llm, classify, correct, maxRetries, system, user, attempt, lastRaw);
            var rest := Loop(llm, classify, correct, maxRetries, system, correct(classify(out)) + user,
                             attempt + 1, Some(RawOf(out)));
            && t.payload == rest.payload && t.summary == rest.summary
            && t.requests == [req] + rest.requests
            && t.sleeps == [Backoff(classify(out), attempt + 1)] + rest.sleeps
            && rest.requests != []
            && StepAt(llm, classify, t, attempt, |t.requests| - 1)
               == StepAt(llm, classify, rest, attempt + 1, |rest.requests| - 1)
  {
    var req := Request(system, user, TEMPERATURE);
    var out := llm(attempt + 1, req);
    LoopShape(llm, classify, correct, maxRetries, system, correct(classify(out)) + user,
              attempt + 1, Some(RawOf(out)));
  }

  /** An accepted last step gives its record and its summary. */
  lemma {:induction false} LoopAcceptedLast(llm: Generator, classify: Classifier, correct: Corrector,
                                            maxRetries: int, system: string, user: string,
                                            attempt: nat, lastRaw: Option<string>)
    ensures var t := Loop(llm, classify, correct, maxRetries, system, user, attempt, lastRaw);
            t.requests != [] && StepAt(llm, classify, t, attempt, |t.requests| - 1).Accepted? ==>
              var s := StepAt(llm, classify, t, attempt, |t.requests| - 1);
              t.payload == Assessment(s.assessment) && t.summary == SummaryText(s.parsed)
    decreases maxRetries - attempt
  {
    var t := Loop(llm, classify, correct, maxRetries, system, user, attempt, lastRaw);
    if attempt <= maxRetries {
      var n := attempt + 1;
      var req := Request(system, user, TEMPERATURE);
      var out := llm(n, req);
      var step := classify(out);
      if !step.Accepted? && n <= maxRetries {
        var user' := correct(step) + user;
        var rest := Loop(llm, classify, correct, maxRetries, system, user', n, Some(RawOf(out)));
        LoopAcceptedLast(llm, classify, correct, maxRetries, system, user', n, Some(RawOf(out)));
        LoopRetries(llm, classify, correct, maxRetries, system, user, attempt, lastRaw);
      } else {
        assert t.requests == [req];
        assert StepAt(llm, classify, t, attempt, 0) == step;
      }
    }
  }

  /** A last step that is not accepted is the step of attempt `maxRetries + 1`
      and gives the matching error object. */
  lemma {:induction false} LoopFailsLast(llm: Generator, classify: Classifier, correct: Corrector,
                                         maxRetries: int, system: string, user: string,
                                         attempt: nat, lastRaw: Option<string>)
    ensures var t := Loop(llm, classify, correct, maxRetries, system, user, attempt, lastRaw);
            t.requests != [] && !StepAt(llm, classify, t, attempt, |t.requests| - 1).Accepted? ==>
              && attempt + |t.requests| == maxRetries + 1
              && t.payload
                 == FinalFailure(StepAt(llm, classify, t, attempt, |t.requests| - 1), maxRetries + 1)
    decreases maxRetries - attempt
  {
    var t := Loop(llm, classify, correct, maxRetries, system, user, attempt, lastRaw);
    if attempt <= maxRetries {
      var n := attempt + 1;
      var req := Request(system, user, TEMPERATURE);
      var out := llm(n, req);
      var step := classify(out);
      if !step.Accepted? && n <= maxRetries {
        var user' := correct(step) + user;
        var rest := Loop(llm, classify, correct, maxRetries, system, user', n, Some(RawOf(out)));
        LoopFailsLast(llm, classify, correct, maxRetries, system, user', n, Some(RawOf(out)));
        LoopRetries(llm, classify, correct, maxRetries, system, user, attempt, lastRaw);
      } else {
        assert t.requests == [req];
        assert StepAt(llm, classify, t, attempt, 0) == step;
      }
    }
  }

  /** After a validated answer, the summary written to memory is the record's
      own (untrimmed) summary. */
  lemma AcceptedSummary(o: Outcome, loads: Decoder)
    requires Classify(o, loads).Accepted?
    ensures SummaryText(Classify(o, loads).parsed) == Classify(o, loads).assessment.summary
  {
    var s := Classify(o, loads);
    SchemaLaws.ValidateYieldsIffDescribes(s.parsed, s.assessment);
  }

  // ------------------------------------------------------------ memory after a run

  /** A successful run with a truthy session appends exactly the user line and
      then the summary line to that session's window, within its capacity, and
      changes no other window. */
  lemma SuccessfulRunRemembers(store: Store, sessionId: Option<string>, userInput: string,
                               t: Trace, n: nat)
    requires Bounded(store, n)
    requires t.payload.Assessment? && Truthy(sessionId)
    ensures var r := StoreAfterRun(store, sessionId, userInput, t, n);
            && Bounded(r, n)
            && WindowOf(r, sessionId.value)
               == LastN(WindowOf(store, sessionId.value)
                        + [USER_TAG + userInput, SUMMARY_TAG + t.summary], n)
            && forall k :: k != sessionId.value ==> WindowOf(r, k) == WindowOf(store, k)
  {
    var k := sessionId.value;
    var w := WindowOf(store, k);
    var l1, l2 := USER_TAG + userInput, SUMMARY_TAG + t.summary;
    var s := Recall(store, sessionId);
    assert WindowOf(s, k) == w;
    var a1 := AddTo(s, k, l1, n);
    var w1 := Push(w, l1, n);
    assert WindowOf(a1, k) == w1;
    var w2 := Push(w1, l2, n);
    assert WindowOf(AddTo(a1, k, l2, n), k) == w2;
    assert [l1, l2][1..] == [l2];
    assert PushAll(w, [l1, l2], n) == PushAll(w1, [l2], n) == w2;
    PushAllKeepsLastN(w, [l1, l2], n);
  }

  /** With room for two entries, those two lines are the newest two. */
  lemma SuccessfulRunNewestEntries(store: Store, sessionId: Option<string>, userInput: string,
                                   t: Trace, n: nat)
    requires Bounded(store, n) && n >= 2
    requires t.payload.Assessment? && Truthy(sessionId)
    ensures var w := WindowOf(StoreAfterRun(store, sessionId, userInput, t, n), sessionId.value);
            && |w| >= 2
            && w[|w| - 2..] == [USER_TAG + userInput, SUMMARY_TAG + t.summary]
  {
    SuccessfulRunRemembers(store, sessionId, userInput, t, n);
    LastNKeepsTail(WindowOf(store, sessionId.value), [USER_TAG + userInput, SUMMARY_TAG + t.summary], n);
  }

  // ------------------------------------------------------------ the chain

  /** `full` is what has been done (`requests`, `sleeps`) followed by `rest`. */
  ghost predicate Continues(full: Trace, requests: seq<Request>, sleeps: seq<nat>, rest: Trace)
  {
    && full.payload == rest.payload && full.summary == rest.summary
    && full.requests == requests + rest.requests
    && full.sleeps == sleeps + rest.sleeps
  }

  /** Taking one more call and pause off `rest` keeps `Continues`. */
  lemma ContinuesStep(full: Trace, requests: seq<Request>, sleeps: seq<nat>, request: Request,
                      pause: nat, next: Trace)
    requires Continues(full, requests, sleeps,
                       Trace(next.payload, [request] + next.requests, [pause] + next.sleeps, next.summary))
    ensures Continues(full, requests + [request], sleeps + [pause], next)
  {
    assert requests + ([request] + next.requests) == requests + [request] + next.requests;
    assert sleeps + ([pause] + next.sleeps) == sleeps + [pause] + next.sleeps;
  }

  class DeterministicChain {
    const llm: Generator
    const memory: ShortTermMemory
    const maxRetries: int

    constructor (llm: Generator, memory: ShortTermMemory, maxRetries: int := MAX_RETRIES)
      ensures this.llm == llm && this.memory == memory && this.maxRetries == maxRetries
    {
      this.llm := llm;
      this.memory := memory;
      this.maxRetries := maxRetries;
    }

    /** `_build_user_prompt`: recalls the session's entries only for a truthy
        session id. */
    method BuildUserPrompt(userInput: string, sessionId: Option<string>) returns (prompt: string)
      requires memory.Valid()
      modifies memory
      ensures memory.Valid()
      ensures prompt == UserPrompt(userInput, Recent(old(memory.store), sessionId))
      ensures memory.store == Recall(old(memory.store), sessionId)
    {
      var entries: seq<string> := [];
      if Truthy(sessionId) {
        entries := memory.GetRecent(sessionId);
      }
      prompt := MemoryText(entries) + UserBlock(userInput);
    }

    /** One attempt of `run`: the `generate` call, then `json.loads` and
        `validate_output` on its text; `step` is how the attempt ended. */
    method Attempt(attempt: nat, request: Request, loads: Decoder) returns (out: Outcome, step: Step)
      ensures out == llm(attempt, request) && step == Classify(out, loads)
    {
      out := llm(attempt, request);
      if out.Failed? {
        return out, GenerationError(out.message);
      }
      var parsed := loads(out.raw);
      if parsed.Failure? {
        return out, NotJson(out.raw, parsed.error);
      }
      var (valid, modelOrErr) := ValidateOutput(parsed.value);
      if valid {
        step := Accepted(parsed.value, modelOrErr.assessment);
      } else {
        step := Rejected(out.raw, modelOrErr.errors);
      }
    }

    /** The retry loop of `run`, from the system and user prompts to the
        answer `(ok, payload)` and, on success, the summary that goes into
        memory; the calls made and the pauses taken are `requests` and
        `sleeps`. A failed attempt that is not the last one records its raw
        output, pauses for `Backoff` and puts `Correction` before the user
        prompt; the last one returns `FinalFailure`. */
    method Retry(systemPrompt: string, userPrompt: string, loads: Decoder)
      returns (ok: bool, payload: Payload, summary: string,
               ghost requests: seq<Request>, ghost sleeps: seq<nat>)
      ensures var t := Loop(llm, ClassifierOf(loads), Correction, maxRetries, systemPrompt, userPrompt, 0, None);
              && ok == payload.Assessment?
              && payload == t.payload && summary == t.summary
              && requests == t.requests && sleeps == t.sleeps
    {
      ghost var classify := ClassifierOf(loads);
      ghost var full := Loop(llm, classify, Correction, maxRetries, systemPrompt, userPrompt, 0, None);
      var prompt := userPrompt;
      var attempt: nat := 0;
      var lastRawOutput: Option<string> := None;
      requests, sleeps := [], [];
      assert Continues(full, requests, sleeps, full);
      while attempt <= maxRetries
        invariant Continues(full, requests, sleeps,
                            Loop(llm, classify, Correction, maxRetries, systemPrompt, prompt,
                                 attempt, lastRawOutput))
        decreases maxRetries - attempt
      {
        ghost var requests0, sleeps0 := requests, sleeps;
        attempt := attempt + 1;
        var request := Request(systemPrompt, prompt, TEMPERATURE);
        var out, step := Attempt(attempt, request, loads);
        requests := requests + [request];
        if step.Accepted? {
          return true, Assessment(step.assessment), SummaryText(step.parsed), requests, sleeps;
        }
        lastRawOutput := Some(RawOf(out));
        if attempt > maxRetries {
          return false, FinalFailure(step, attempt), "", requests, sleeps;
        }
        var pause := Backoff(step, attempt);
        prompt := Correction(step) + prompt;
        sleeps := sleeps + [pause];
        ContinuesStep(full, requests0, sleeps0, request, pause,
                      Loop(llm, classify, Correction, maxRetries, systemPrompt, prompt,
                           attempt, lastRawOutput));
      }
      return false, ExceededRetries(lastRawOutput), "", requests, sleeps;
    }

    /** `run`: builds the two prompts, runs the retry loop and, on success
        with a truthy session id, adds the user line and the summary line to
        that session's memory, as `StoreAfterRun` describes. */
    method Run(userInput: string, sessionId: Option<string>, loads: Decoder)
      returns (ok: bool, payload: Payload, ghost requests: seq<Request>, ghost sleeps: seq<nat>)
      requires memory.Valid()
      modifies memory
      ensures memory.Valid()
      ensures var t := RunTrace(llm, loads, maxRetries, userInput,
                                Recent(old(memory.store), sessionId));
              && ok == payload.Assessment?
              && payload == t.payload && requests == t.requests && sleeps == t.sleeps
              && memory.store
                 == StoreAfterRun(old(memory.store), sessionId, userInput, t, memory.maxLen)
    {
      var systemPrompt := SystemPrompt();
      var userPrompt := BuildUserPrompt(userInput, sessionId);
      var summary;
      ok, payload, summary, requests, sleeps := Retry(systemPrompt, userPrompt, loads);
      if ok && Truthy(sessionId) {
        memory.Add(sessionId.value, USER_TAG + userInput);
        memory.Add(sessionId.value, SUMMARY_TAG + summary);
      }
    }
  }
}
