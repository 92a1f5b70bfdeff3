/**
 * `processReport` as a function from the request and the two foreign services to the
 * status code and JSON body that `res.status(...).json(...)` would send.
 *
 * `recognize` stands for the OCR engine (the recognised text, or `None` when it throws) and
 * `generate` for the language model (its parsed JSON reply, or `None` when the call or the
 * parse throws). The request body is taken to be an object, so `req.body.text` is the
 * optional member `text`.
 */
module ReportController {
  import opened Wrappers
  import opened Json
  import OcrService
  import AiService

  /** An uploaded file; only its bytes are used. */
  datatype Upload = Upload(buffer: seq<bv8>)

  datatype Request = Request(file: Option<Upload>, text: Option<Json>)

  datatype Response = Response(code: nat, body: Json)

  /**
   * How a step of the handler ends: it hands a value to the next step, it returns a
   * response early, or it throws an error with a message that the `catch` turns into a 500.
   */
  datatype Step<+T> = Next(value: T) | Reply(response: Response) | Throw(message: string)

  const NoInputMessage := "No input provided."
  const TooShortMessage := "Input text is too short."
  const UnprocessedReason := "No tests found or potential hallucinations detected"

  /** An error response: a 400 or a 500 whose body is `{status: "error", message}`. */
  predicate IsError(r: Response)
  {
    r.code in {400, 500} &&
    r.body.JObj? && r.body.members.Keys == {"status", "message"} &&
    r.body.members["status"] == JStr("error") && r.body.members["message"].JStr?
  }

  /** A successful response: a 200 whose body is the "unprocessed" body or has `status: "ok"`. */
  predicate IsSuccess(r: Response)
  {
    r.code == 200 && (r.body == UnprocessedBody || Member(r.body, "status") == Some(JStr("ok")))
  }

  function ErrorBody(message: string): (body: Json)
    ensures forall code :: code in {400, 500} ==> IsError(Response(code, body))
  {
    JObj(map["status" := JStr("error"), "message" := JStr(message)])
  }

  const UnprocessedBody: Json := JObj(map["status" := JStr("unprocessed"), "reason" := JStr(UnprocessedReason)])

  /**
   * Step 1: the raw text. A file wins over body text and goes through OCR and clean-up;
   * otherwise a truthy body `text` is taken as it is; otherwise the request is refused.
   */
  function SelectInput(req: Request, recognize: seq<bv8> -> Option<string>): Step<Json>
  {
    if req.file.Some? then
      match OcrService.ExtractTextFromBuffer(req.file.value.buffer, recognize)
      case Ok(text) => Next(JStr(text))
      case Err(m) => Throw(m)
    else if Truthy(req.text) then
      Next(req.text.value)
    else
      Reply(Response(400, ErrorBody(NoInputMessage)))
  }

  /**
   * Step 2's guard: `!rawText || rawText.length < 5`. The comparison is only reached for a
   * truthy text, and it throws when the `length` cannot be converted to a number.
   */
  function TooShort(raw: Json): Result<bool>
  {
    if !Truthy(Some(raw)) then Ok(true) else LessThan(Member(raw, "length"), 5.0)
  }

  /** The guard on `tests`: `!aiResult.tests || aiResult.tests.length === 0`. */
  predicate NoTests(tests: Option<Json>)
  {
    !Truthy(tests) || Member(tests.value, "length") == Some(JNum(0.0))
  }

  /**
   * Step 4: the body sent when tests were found. `tests` and `summary` are copied (a missing
   * `summary` is left out, as `JSON.stringify` drops `undefined`), `explanations` and
   * `normalization_confidence` fall back to `[]` and `0` when falsy, and `status` is `"ok"`
   * whatever the reply said.
   */
  function OkBody(ai: Json, tests: Json): Json
  {
    var fields := map[
      "tests" := tests,
      "explanations" := Or(Member(ai, "explanations"), JArr([])),
      "normalization_confidence" := Or(Member(ai, "normalization_confidence"), JNum(0.0)),
      "status" := JStr("ok")
    ];
    match Member(ai, "summary")
    case Some(summary) => JObj(fields["summary" := summary])
    case None => JObj(fields)
  }

  /** Steps 3 and 4, with the `catch` for the `TypeError` that reading `null.tests` throws. */
  function Answer(ai: Json): (r: Response)
    ensures IsSuccess(r) || (IsError(r) && r.code == 500)
  {
    match Read(ai, "tests")
    case Err(m) => Response(500, ErrorBody(m))
    case Ok(tests) =>
      if NoTests(tests) then Response(200, UnprocessedBody)
      else Response(200, OkBody(ai, tests.value))
  }

  /** The whole handler. */
  function ProcessReport(req: Request, recognize: seq<bv8> -> Option<string>, generate: Json -> Option<Json>): (r: Response)
    ensures IsSuccess(r) || IsError(r)
  {
    match SelectInput(req, recognize)
    case Reply(response) => response
    case Throw(m) => Response(500, ErrorBody(m))
    case Next(raw) =>
      match TooShort(raw)
      case Err(m) => Response(500, ErrorBody(m))
      case Ok(true) => Response(400, ErrorBody(TooShortMessage))
      case Ok(false) =>
        match AiService.AnalyzeMedicalText(raw, generate)
        case Err(m) => Response(500, ErrorBody(m))
        case Ok(ai) => Answer(ai)
  }
}
