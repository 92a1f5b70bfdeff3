/** What `processReport` promises, stated over `ProcessReport` and `Answer`. */
module ControllerProperties {
  import opened Wrappers
  import opened Json
  import opened OcrService
  import opened AiService
  import opened Validation
  import opened ReportController

  /** With no file and a missing or falsy body `text`, the request is refused with 400. */
  lemma NoInputRejected(req: Request, recognize: seq<bv8> -> Option<string>, generate: Json -> Option<Json>)
    requires req.file.None? && !Truthy(req.text)
    ensures ProcessReport(req, recognize, generate) == Response(400, ErrorBody("No input provided."))
  {
  }

  /** When a file is present, the body `text` plays no part. */
  lemma FileTakesPriority(req: Request, recognize: seq<bv8> -> Option<string>, generate: Json -> Option<Json>)
    requires req.file.Some?
    ensures ProcessReport(req, recognize, generate) == ProcessReport(Request(req.file, None), recognize, generate)
  {
  }

  /** An OCR failure is caught and answered with 500 and the OCR service's message. */
  lemma OcrFailureIs500(req: Request, recognize: seq<bv8> -> Option<string>, generate: Json -> Option<Json>)
    requires req.file.Some? && recognize(req.file.value.buffer).None?
    ensures ProcessReport(req, recognize, generate) == Response(500, ErrorBody("Failed to extract text from image."))
  {
  }

  /**
   * With a file, the AI is asked about the cleaned OCR text and nothing else: two models that
   * agree on that text give the same response.
   */
  lemma AiSeesCleanedOcrText(req: Request, recognize: seq<bv8> -> Option<string>, text: string,
                             generate: Json -> Option<Json>, generate': Json -> Option<Json>)
    requires req.file.Some? && recognize(req.file.value.buffer) == Some(text)
    requires generate(JStr(Clean(text))) == generate'(JStr(Clean(text)))
    ensures ProcessReport(req, recognize, generate) == ProcessReport(req, recognize, generate')
  {
  }

  /**
   * Without a file, the body `text` reaches the AI exactly as given, not cleaned, and the OCR
   * engine is not used.
   */
  lemma AiSeesBodyTextUnchanged(req: Request, recognize: seq<bv8> -> Option<string>, recognize': seq<bv8> -> Option<string>,
                                generate: Json -> Option<Json>, generate': Json -> Option<Json>)
    requires req.file.None? && req.text.Some?
    requires generate(req.text.value) == generate'(req.text.value)
    ensures ProcessReport(req, recognize, generate) == ProcessReport(req, recognize', generate')
  {
  }

  /** Body text of one to four characters is refused with 400 whatever the AI would say. */
  lemma ShortBodyTextRejected(req: Request, recognize: seq<bv8> -> Option<string>, generate: Json -> Option<Json>)
    requires req.file.None? && req.text.Some? && req.text.value.JStr? && 0 < |req.text.value.s| < 5
    ensures ProcessReport(req, recognize, generate) == Response(400, ErrorBody("Input text is too short."))
  {
  }

  /** Cleaned OCR text under five characters, empty included, is refused with 400 whatever the AI would say. */
  lemma ShortOcrTextRejected(req: Request, recognize: seq<bv8> -> Option<string>, text: string, generate: Json -> Option<Json>)
    requires req.file.Some? && recognize(req.file.value.buffer) == Some(text) && |Clean(text)| < 5
    ensures ProcessReport(req, recognize, generate) == Response(400, ErrorBody("Input text is too short."))
  {
  }

  /** The reply the handler works on, once the AI service has been called with `raw`. */
  function ReplyTo(raw: Json, generate: Json -> Option<Json>): Json
  {
    if generate(raw).Some? then generate(raw).value else Sentinel
  }

  /** Body text of five characters or more passes the length check and goes to the AI as it is. */
  lemma LongTextReachesAi(req: Request, recognize: seq<bv8> -> Option<string>, generate: Json -> Option<Json>)
    requires req.file.None? && req.text.Some? && req.text.value.JStr? && |req.text.value.s| >= 5
    ensures ProcessReport(req, recognize, generate) == Answer(ReplyTo(req.text.value, generate))
  {
  }

  /** A non-zero number as `text` has no `length`, so the length check lets it through to the AI. */
  lemma NumberPassesLengthCheck(req: Request, recognize: seq<bv8> -> Option<string>, generate: Json -> Option<Json>)
    requires req.file.None? && req.text.Some? && req.text.value.JNum? && req.text.value.n != 0.0
    ensures ProcessReport(req, recognize, generate) == Answer(ReplyTo(req.text.value, generate))
  {
  }

  /**
   * An object `text` with its own `toString` member and no `length` passes the length check,
   * but building the prompt from it throws, and the `catch` answers 500. The AI is not asked.
   */
  lemma PromptConversionIs500(req: Request, recognize: seq<bv8> -> Option<string>, generate: Json -> Option<Json>)
    requires req.file.None? && req.text.Some? && req.text.value.JObj?
    requires "toString" in req.text.value.members && "length" !in req.text.value.members
    ensures ProcessReport(req, recognize, generate) == Response(500, ErrorBody("Cannot convert object to primitive value"))
  {
  }

  /**
   * An object `text` whose `length` member cannot be converted to a number makes the `< 5`
   * comparison throw, and the `catch` answers 500.
   */
  lemma LengthConversionIs500(req: Request, recognize: seq<bv8> -> Option<string>, generate: Json -> Option<Json>)
    requires req.file.None? && req.text.Some? && req.text.value.JObj?
    requires "length" in req.text.value.members && ConversionThrows(req.text.value.members["length"])
    ensures ProcessReport(req, recognize, generate) == Response(500, ErrorBody("Cannot convert object to primitive value"))
  {
  }

  /**
   * A reply object whose `tests` is missing, falsy or an empty array gives 200 with exactly
   * the "unprocessed" body.
   */
  lemma MissingTestsUnprocessed(ai: Json)
    requires ai.JObj?
    requires "tests" !in ai.members || Some(ai.members["tests"]) in FalsyValues || ai.members["tests"] == JArr([])
    ensures Answer(ai) == Response(200, UnprocessedBody)
  {
    TruthyIffNotFalsy(Member(ai, "tests"));
  }

  /** A reply that is a string, number, Boolean or array has no `tests` and is "unprocessed" too. */
  lemma NonObjectReplyUnprocessed(ai: Json)
    requires !ai.JObj? && ai != JNull
    ensures Answer(ai) == Response(200, UnprocessedBody)
  {
  }

  /** A `null` reply makes `aiResult.tests` throw, which the `catch` turns into 500. */
  lemma NullReplyIs500()
    ensures Answer(JNull) == Response(500, ErrorBody("Cannot read properties of null (reading 'tests')"))
  {
    assert NullAccessMessage("tests") == "Cannot read properties of null (reading 'tests')";
  }

  /** The reply has usable tests: an object whose `tests` is truthy and whose `tests.length` is not 0. */
  predicate HasTests(ai: Json)
  {
    ai.JObj? && "tests" in ai.members && Truthy(Some(ai.members["tests"])) &&
    Member(ai.members["tests"], "length") != Some(JNum(0.0))
  }

  /**
   * With usable tests the response is 200 and its body holds exactly the copied `tests`, the
   * copied `summary` when there is one, `explanations` and `normalization_confidence` with
   * their defaults, and `status: "ok"`.
   */
  lemma OkBodyFields(ai: Json)
    requires HasTests(ai)
    ensures Answer(ai).code == 200 && Answer(ai).body.JObj?
    ensures var body := Answer(ai).body.members;
      && body.Keys == {"tests", "explanations", "normalization_confidence", "status"} + (if "summary" in ai.members then {"summary"} else {})
      && body["tests"] == ai.members["tests"]
      && ("summary" in ai.members ==> body["summary"] == ai.members["summary"])
      && (Truthy(Member(ai, "explanations")) ==> body["explanations"] == ai.members["explanations"])
      && (!Truthy(Member(ai, "explanations")) ==> body["explanations"] == JArr([]))
      && (Truthy(Member(ai, "normalization_confidence")) ==> body["normalization_confidence"] == ai.members["normalization_confidence"])
      && (!Truthy(Member(ai, "normalization_confidence")) ==> body["normalization_confidence"] == JNum(0.0))
      && body["status"] == JStr("ok")
  {
  }

  /**
   * The reply's own `status`, `hallucination_check` or any other member the body does not
   * copy has no effect on the response.
   */
  lemma AnswerIgnoresOtherKeys(ai: Json, key: string, x: Json)
    requires ai.JObj? && key !in {"tests", "summary", "explanations", "normalization_confidence"}
    ensures Answer(JObj(ai.members[key := x])) == Answer(ai)
  {
  }

  /** The AI service's failure value is answered "unprocessed". */
  lemma SentinelUnprocessed()
    ensures Answer(Sentinel) == Response(200, UnprocessedBody)
  {
    SentinelHasNoTests();
  }

  /** If the AI always fails, no response is ever "ok". */
  lemma AiFailureNeverOk(req: Request, recognize: seq<bv8> -> Option<string>, generate: Json -> Option<Json>)
    requires forall text :: generate(text).None?
    ensures Member(ProcessReport(req, recognize, generate).body, "status") != Some(JStr("ok"))
  {
    SentinelUnprocessed();
  }

  /** `ReportSchema` rejects the AI service's failure value. */
  lemma SentinelRejected()
    ensures !Accepts(ReportSchema, Some(Sentinel))
  {
    SentinelHasNoTests();
    ErrorStatusRejected(Sentinel);
  }

  /** The "ok" body meets `ReportSchema` exactly when every test meets `TestSchema` and `summary` is a string. */
  lemma OkBodyValidIff(ai: Json)
    requires HasTests(ai)
    ensures Accepts(ReportSchema, Some(Answer(ai).body)) <==> IsTestList(Member(ai, "tests")) && IsString(Member(ai, "summary"))
  {
    OkBodyFields(ai);
    ReportSchemaFields(Answer(ai).body);
  }

  /** The "unprocessed" body never meets `ReportSchema`: it has neither `tests` nor `summary`. */
  lemma UnprocessedBodyInvalid()
    ensures !Accepts(ReportSchema, Some(UnprocessedBody))
  {
    ReportSchemaFields(UnprocessedBody);
  }

  /** Only an "ok" response can meet `ReportSchema`. */
  lemma ValidBodyIsOk(req: Request, recognize: seq<bv8> -> Option<string>, generate: Json -> Option<Json>)
    ensures var r := ProcessReport(req, recognize, generate);
      Accepts(ReportSchema, Some(r.body)) ==> r.code == 200 && Member(r.body, "status") == Some(JStr("ok"))
  {
    var r := ProcessReport(req, recognize, generate);
    if IsError(r) {
      ErrorStatusRejected(r.body);
    } else {
      UnprocessedBodyInvalid();
    }
  }
}
