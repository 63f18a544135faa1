/**
 * The runs of src/tests/test_chain.py, and the two ways a run can fail for
 * good, proved about `RunTrace` and, for the first test, about the
 * `DeterministicChain` object itself. The decoder is left abstract: each
 * scenario only says what it gives for the outputs involved.
 */
module ChainScenarios {
  import opened Wrappers
  import opened JsonValues
  import opened Schemas
  import opened SchemaLaws
  import opened Memory
  import opened Chain
  import opened Fixtures

  /** The record of VALID_JSON_STR. */
  const TEST_ACME: StartupAssessment := StartupAssessment(
    "Acme Market",
    ACME_SUMMARY,
    Market("> $50M", ["India"], ["Competitor A"]),
    Product("marketplace", "Local logistics focus"),
    BusinessModel(["fees"], []),
    Team(Count(2), [], []),
    [],
    Recommendation("hold", "unit economics unclear"),
    [])

  /** The record of VALID_JSON_STR is well-formed. */
  lemma TestAcmeWellFormed()
    ensures WellFormed(TEST_ACME)
  {
    AcmeSummaryNotBlank();
  }

  /** An answer that decodes to the encoding of a well-formed record is
      accepted with that record, and its summary is the record's. */
  lemma EncodedAccepted(raw: string, loads: Decoder, a: StartupAssessment)
    requires loads(raw) == Success(Encode(a)) && WellFormed(a)
    ensures Classify(Text(raw), loads) == Accepted(Encode(a), a)
    ensures SummaryText(Encode(a)) == a.summary
  {
    EncodeValidateRoundTrip(a);
    AcceptedSummary(Text(raw), loads);
  }

  /** A generator that always gives `o`, as `MockClient` does. */
  function Always(o: Outcome): Generator
  {
    (attempt: nat, request: Request) => o
  }

  /** A loop whose first step is accepted makes one call and no pause. */
  lemma FirstAccepted(llm: Generator, classify: Classifier, correct: Corrector, maxRetries: int,
                      system: string, user: string, p: Json, a: StartupAssessment)
    requires 0 <= maxRetries
    requires classify(llm(1, Request(system, user, TEMPERATURE))) == Accepted(p, a)
    ensures Loop(llm, classify, correct, maxRetries, system, user, 0, None)
         == Trace(Assessment(a), [Request(system, user, TEMPERATURE)], [], SummaryText(p))
  {
  }

  /** A loop whose first step fails and whose second is accepted makes two
      calls, the second with the correction in front, and one pause. */
  lemma SecondAccepted(llm: Generator, classify: Classifier, correct: Corrector, maxRetries: int,
                       system: string, user: string, first: Step, p: Json, a: StartupAssessment)
    requires 1 <= maxRetries
    requires classify(llm(1, Request(system, user, TEMPERATURE))) == first && !first.Accepted?
    requires classify(llm(2, Request(system, correct(first) + user, TEMPERATURE))) == Accepted(p, a)
    ensures Loop(llm, classify, correct, maxRetries, system, user, 0, None)
         == Trace(Assessment(a),
                  [Request(system, user, TEMPERATURE), Request(system, correct(first) + user, TEMPERATURE)],
                  [Backoff(first, 1)], SummaryText(p))
  {
    var r0 := Request(system, user, TEMPERATURE);
    var r1 := Request(system, correct(first) + user, TEMPERATURE);
    var rest := Loop(llm, classify, correct, maxRetries, system, correct(first) + user, 1,
                     Some(RawOf(llm(1, r0))));
    assert rest == Trace(Assessment(a), [r1], [], SummaryText(p));
    assert [r0] + [r1] == [r0, r1];
  }

  /** A generator that keeps giving an outcome that is never accepted uses
      every attempt left, pauses by the back-off of that step after each but
      the last, puts the same correction in front each time, and ends with
      the error object for that step on attempt `maxRetries + 1`. */
  lemma PersistentFailure(o: Outcome, classify: Classifier, correct: Corrector, maxRetries: int,
                          system: string, user: string, attempt: nat, lastRaw: Option<string>)
    requires !classify(o).Accepted? && attempt <= maxRetries
    ensures var t := Loop(Always(o), classify, correct, maxRetries, system, user, attempt, lastRaw);
            && |t.requests| == maxRetries + 1 - attempt && |t.sleeps| == |t.requests| - 1
            && t.requests[0].user == user
            && (forall i :: 0 <= i < |t.requests| - 1 ==>
                  t.requests[i + 1].user == correct(classify(o)) + t.requests[i].user)
            && (forall i :: 0 <= i < |t.sleeps| ==> t.sleeps[i] == Backoff(classify(o), attempt + i + 1))
            && t.payload == FinalFailure(classify(o), maxRetries + 1)
  {
    var llm := Always(o);
    var t := Loop(llm, classify, correct, maxRetries, system, user, attempt, lastRaw);
    LoopShape(llm, classify, correct, maxRetries, system, user, attempt, lastRaw);
    LoopUserPrompts(llm, classify, correct, maxRetries, system, user, attempt, lastRaw);
    LoopSleeps(llm, classify, correct, maxRetries, system, user, attempt, lastRaw);
    LoopFailsLast(llm, classify, correct, maxRetries, system, user, attempt, lastRaw);
    assert StepAt(llm, classify, t, attempt, |t.requests| - 1) == classify(o);
  }

  /** With the default budget of two retries, such a generator is called
      three times. */
  lemma ThreeFailures(o: Outcome, classify: Classifier, correct: Corrector, system: string, user: string)
    requires !classify(o).Accepted?
    ensures var t := Loop(Always(o), classify, correct, MAX_RETRIES, system, user, 0, None);
            var s := classify(o);
            && |t.requests| == 3
            && t.requests[0].user == user
            && t.requests[1].user == correct(s) + user
            && t.requests[2].user == correct(s) + (correct(s) + user)
            && t.sleeps == [Backoff(s, 1), Backoff(s, 2)]
            && t.payload == FinalFailure(s, 3)
  {
    var t := Loop(Always(o), classify, correct, MAX_RETRIES, system, user, 0, None);
    PersistentFailure(o, classify, correct, MAX_RETRIES, system, user, 0, None);
    assert t.requests[1].user == correct(classify(o)) + t.requests[0].user;
    assert t.requests[2].user == correct(classify(o)) + t.requests[1].user;
  }

  const SUCCESS_INPUT: string := "Analyze this startup: Acme Market"

  /** test_chain_success, for any well-formed record the mock's answer
      decodes to: one call, that record, and memory (capacity 4, initially
      empty) holding the user line and the summary line of session "test". */
  lemma ChainSuccess(raw: string, loads: Decoder, a: StartupAssessment)
    requires loads(raw) == Success(Encode(a)) && WellFormed(a)
    ensures var t := RunTrace(Always(Text(raw)), loads, MAX_RETRIES, SUCCESS_INPUT, Recent(map[], Some("test")));
            && t.payload == Assessment(a)
            && |t.requests| == 1 && t.sleeps == []
            && WindowOf(StoreAfterRun(map[], Some("test"), SUCCESS_INPUT, t, 4), "test")
               == [USER_TAG + SUCCESS_INPUT, SUMMARY_TAG + a.summary]
  {
    var entries := Recent(map[], Some("test"));
    var t := RunTrace(Always(Text(raw)), loads, MAX_RETRIES, SUCCESS_INPUT, entries);
    EncodedAccepted(raw, loads, a);
    FirstAccepted(Always(Text(raw)), ClassifierOf(loads), Correction, MAX_RETRIES, SystemPrompt(),
                  UserPrompt(SUCCESS_INPUT, entries), Encode(a), a);
    SuccessfulRunRemembers(map[], Some("test"), SUCCESS_INPUT, t, 4);
    assert WindowOf(map[], "test") == [];
  }

  /** test_chain_success on the object: a new memory of capacity 4, a chain
      with the default retry budget, `run` and `get_recent("test")`. */
  method ChainSuccessRun(raw: string, loads: Decoder) returns (ok: bool, name: string, recent: seq<string>)
    requires loads(raw) == Success(Encode(TEST_ACME))
    ensures ok && name == "Acme Market"
    ensures recent == [USER_TAG + SUCCESS_INPUT, SUMMARY_TAG + ACME_SUMMARY]
  {
    var memory := new ShortTermMemory(4);
    var chain := new DeterministicChain(Always(Text(raw)), memory);
    TestAcmeWellFormed();
    ChainSuccess(raw, loads, TEST_ACME);
    var payload: Payload;
    ghost var requests, sleeps;
    ok, payload, requests, sleeps := chain.Run(SUCCESS_INPUT, Some("test"), loads);
    name := payload.value.name;
    recent := memory.GetRecent(Some("test"));
  }

  /** `SequenceMock(["not-json", raw])`: the first call answers "not-json",
      every later one `raw`. */
  function NotJsonThen(raw: string): Generator
  {
    (attempt: nat, request: Request) => if attempt <= 1 then Text("not-json") else Text(raw)
  }

  /** test_chain_invalid_json_retries_and_fails: the first answer does not
      parse, so after a pause of 0.2 s the same request is repeated with the
      strict-JSON reminder in front, and the second answer is accepted. */
  lemma InvalidJsonThenValid(raw: string, loads: Decoder, a: StartupAssessment, entries: seq<string>)
    requires loads("not-json").Failure?
    requires loads(raw) == Success(Encode(a)) && WellFormed(a)
    ensures var t := RunTrace(NotJsonThen(raw), loads, 2, "Please analyze", entries);
            && t.payload == Assessment(a)
            && |t.requests| == 2
            && t.requests[1].user == STRICT_JSON_PREFIX + t.requests[0].user
            && t.requests[1].system == t.requests[0].system
            && t.sleeps == [2]
  {
    var first := Classify(Text("not-json"), loads);
    assert first.NotJson?;
    EncodedAccepted(raw, loads, a);
    SecondAccepted(NotJsonThen(raw), ClassifierOf(loads), Correction, 2, SystemPrompt(),
                   UserPrompt("Please analyze", entries), first, Encode(a), a);
  }

  /** With the default budget and the loop's own corrections, an answer that
      never parses is sent three times, each retry behind one more strict-JSON
      reminder, after pauses of 0.2 s and 0.4 s, and ends in `invalid_json`. */
  lemma ThreeNotJson(o: Outcome, classify: Classifier, system: string, user: string,
                     raw: string, detail: string)
    requires classify(o) == NotJson(raw, detail)
    ensures var t := Loop(Always(o), classify, Correction, MAX_RETRIES, system, user, 0, None);
            && t.payload == InvalidJson(raw, detail)
            && |t.requests| == 3
            && t.requests[0].user == user
            && t.requests[2].user == STRICT_JSON_PREFIX + (STRICT_JSON_PREFIX + user)
            && t.sleeps == [2, 4]
  {
    ThreeFailures(o, classify, Correction, system, user);
  }

  /** With the default budget, three unparsable answers end the run with
      `invalid_json` for the last one, after pauses of 0.2 s and 0.4 s, each
      retry carrying one more strict-JSON reminder. */
  lemma AlwaysInvalidJson(loads: Decoder, userInput: string, entries: seq<string>)
    requires loads("not-json").Failure?
    ensures var t := RunTrace(Always(Text("not-json")), loads, MAX_RETRIES, userInput, entries);
            && t.payload == InvalidJson("not-json", loads("not-json").error)
            && |t.requests| == 3
            && t.requests[0].user == UserPrompt(userInput, entries)
            && t.requests[2].user == STRICT_JSON_PREFIX + (STRICT_JSON_PREFIX + t.requests[0].user)
            && t.sleeps == [2, 4]
  {
    NotJsonClassified(loads);
    ThreeNotJson(Text("not-json"), ClassifierOf(loads), SystemPrompt(), UserPrompt(userInput, entries),
                 "not-json", loads("not-json").error);
  }

  /** An answer the decoder refuses is classified as not JSON, with the
      decoder's message. */
  lemma NotJsonClassified(loads: Decoder)
    requires loads("not-json").Failure?
    ensures ClassifierOf(loads)(Text("not-json")) == NotJson("not-json", loads("not-json").error)
  {
  }

  /** With the default budget, a generator that always raises ends the run
      with `llm_call_failed` on attempt 3, after pauses of 0.5 s and 1.0 s,
      and the user prompt is never changed. */
  lemma AlwaysGenerationError(message: string, loads: Decoder, userInput: string, entries: seq<string>)
    ensures var t := RunTrace(Always(Failed(message)), loads, MAX_RETRIES, userInput, entries);
            && t.payload == LlmCallFailed(message, 3)
            && |t.requests| == 3
            && t.requests[0].user == t.requests[1].user == t.requests[2].user == UserPrompt(userInput, entries)
            && t.sleeps == [5, 10]
  {
    var c := ClassifierOf(loads);
    var user := UserPrompt(userInput, entries);
    assert c(Failed(message)) == GenerationError(message);
    assert "" + user == user;
    assert "" + ("" + user) == user;
    ThreeFailures(Failed(message), c, Correction, SystemPrompt(), user);
  }
}
