# medical-report-ai: OCR clean-up, request handling and response schemas

This project models the core of `medical-report-ai`, an Express service. The service takes a
scanned lab report or its text and lets a language model extract the lab tests from it. The model
covers three parts of that service:

- **OCR clean-up.** `extractTextFromBuffer` applies nine global regular-expression replacements to
  the OCR engine's text, in a fixed order, and then `trim()`. In module `OcrService` each
  replacement is a scanning function with the semantics of JavaScript `String.prototype.replace`
  under the `g` flag: the leftmost match wins, matches never overlap, and scanning resumes after
  each match. Quantifiers are greedy, `(?!\d)` is a lookahead, and `^`/`$` use multiline mode.
  `Clean` chains the nine rules and `Trim`.
- **The request handler `processReport`.** In module `ReportController` it is a pure function
  from the request and two services to a status code and a JSON body. The services are the OCR
  engine (`recognize`) and the language model behind `analyzeMedicalText` (`generate`). Both are
  parameters that return a value or `None` for a thrown error. The handler:
  - selects the input, preferring a file over body text;
  - refuses input that is missing or shorter than five characters;
  - applies the empty-tests check;
  - assembles the `"ok"` body;
  - turns any thrown error into a 500.

  JavaScript truthiness, property access, `.length`, `< 5` and `=== 0` are modelled in module
  `Json`. Module `AiService` holds the fixed value that `analyzeMedicalText` returns when the model
  call or `JSON.parse` fails.
- **The Zod schemas `TestSchema` and `ReportSchema`.** Module `Validation` writes them as data.
  `Accepts` interprets that data as `safeParse(...).success`, and lemmas relate it to a
  field-by-field reading. Module `ControllerProperties` relates the schemas to the bodies the
  handler builds. The handler itself never validates, because its `safeParse` call is commented
  out.

Modules `OcrProperties` and `OcrExamples` hold the lemmas about the clean-up. `Text` holds the
character classes and `Wrappers` holds `Option` and `Result`.

Assumptions:

- **Whitespace.** `\s` and `trim()` use the ECMAScript whitespace set: TAB, VT, FF, SP, NBSP,
  ZWNBSP, the Unicode 15 `Zs` code points, and the line terminators LF, CR, LS and PS.
- **Case folding.** The `i` flag folds ASCII letters only.
- **String length.** `.length` is taken as the number of `char`s, and a `char` is a Unicode
  scalar value. This equals JavaScript's length only for text with no character outside the Basic
  Multilingual Plane, and the model assumes such text.
- **Numbers.** A JSON number is a `real`. The model never does arithmetic on it.

## Model

| member | source | states |
|---|---|---|
| `OcrService.Trim` | src/services/ocrService.js:35 | The result neither starts nor ends with whitespace, and it is the input with a whitespace-only prefix and suffix removed. |
| `OcrService.ExtractTextFromBuffer` | src/services/ocrService.js:9-45 | An OCR failure becomes the error "Failed to extract text from image."; otherwise the result is the cleaned recognised text. |
| `OcrProperties.CleanKeepsDigits` | src/services/ocrService.js:15-35 | Cleaning never adds, drops or reorders a digit: the digit subsequence of the output equals that of the input. |
| `OcrProperties.RuleKeepsDigits` | src/services/ocrService.js:17-33 | Each of the nine replacements, on its own, keeps the digit subsequence. |
| `OcrProperties.CleanIsTrimmed` | src/services/ocrService.js:35 | The output is empty or neither starts nor ends with whitespace, and `Clean("")` is `""`. |
| `OcrProperties.CollapseKeepsVisible` | src/services/ocrService.js:17 | Collapsing blank lines removes only whitespace. |
| `OcrProperties.TightenPercentIsTight` | src/services/ocrService.js:31 | After line 31 no `%` is followed by whitespace. |
| `OcrProperties.DropStrayKeepsTight` | src/services/ocrService.js:33 | Deleting punctuation-only lines never puts whitespace after a `%`. |
| `OcrProperties.CleanTightensPercent` | src/services/ocrService.js:31-35 | In the cleaned output no `%` is followed by whitespace. |
| `OcrProperties.CleanLonePunctuation` | src/services/ocrService.js:33-35 | Input made of whitespace and a single `.`, `,` or `-` cleans to `""`. |
| `OcrProperties.InertUnchanged` | src/services/ocrService.js:17-33 | A replacement whose pattern has nothing in the input to start a match on leaves the input unchanged. |
| `OcrProperties.CleanOnlyTrims` | src/services/ocrService.js:15-35 | Input with no digit, `%`, `/`, `.`, `,`, `-` or line feed is only trimmed. |
| `OcrExamples.JoinThousandsWhole` | src/services/ocrService.js:19 | A digit run, whitespace and exactly three digits are joined into one digit run. |
| `OcrExamples.JoinHundredsWhole` | src/services/ocrService.js:21 | A digit run, whitespace and exactly two digits are joined into one digit run. |
| `OcrExamples.HundredsSkipsGroupOfThree` | src/services/ocrService.js:21 | The two-digit rule leaves a split group of three digits alone, because of its lookahead. |
| `OcrExamples.JoinDecimalPointWhole` | src/services/ocrService.js:23 | Whitespace around a dot between two digit runs is removed. |
| `OcrExamples.CompactGramPerDecilitreWhole` | src/services/ocrService.js:25 | `g`, whitespace, `/`, whitespace and `dL`, in any letter case, become `g/dL`. |
| `OcrExamples.CompactMilligramPerDecilitreWhole` | src/services/ocrService.js:27 | `mg`, whitespace, `/`, whitespace and `dL`, in any letter case, become `mg/dL`. |
| `OcrExamples.CompactPerMicrolitreWhole` | src/services/ocrService.js:29 | `/`, a space, more whitespace and `uL`, in any letter case, become `/uL`. |
| `OcrExamples.PerMicrolitreNeedsSpace` | src/services/ocrService.js:29 | When no `/` is followed by a space, the `/uL` rule changes nothing. |
| `OcrExamples.KeepsTightMicrolitre` | src/services/ocrService.js:29 | `/uL` with no space after the slash is left untouched. |
| `OcrExamples.CompactsUnitExamples` | src/services/ocrService.js:24-29 | `g / dL`, `mg / DL` and `/ uL` become `g/dL`, `mg/dL` and `/uL`. |
| `OcrExamples.StrayNeedsLineStart` | src/services/ocrService.js:33 | Single-line text that does not start with whitespace or punctuation is untouched by the stray-punctuation rule. |
| `OcrExamples.CleanJoinsThousands` | src/services/ocrService.js:15-35 | Cleaning a digit run, whitespace without a line feed, and three digits yields the joined digit run. |
| `OcrExamples.CleanJoinsElevenThousandTwoHundred` | src/services/ocrService.js:18-19 | `Clean("11 200")` is `"11200"`. |
| `OcrExamples.CleanJoinsDecimalPoint` | src/services/ocrService.js:15-35 | Cleaning digits, whitespace without a line feed, a dot, whitespace without a line feed and digits yields `digits.digits`. |
| `OcrExamples.CleanJoinsFourteenPointFive` | src/services/ocrService.js:22-23 | `Clean("14 . 5")` is `"14.5"`. |
| `OcrExamples.JoinThousandsNotIdempotent` | src/services/ocrService.js:19 | Line 19 turns `1 234 567` into `1234 567`, and a second pass turns that into `1234567`. |
| `OcrExamples.CleanNotIdempotent` | src/services/ocrService.js:15-35 | `Clean("1 234 567")` is `"1234 567"`, and cleaning it again gives `"1234567"`. Cleaning is not idempotent. |
| `Json.TruthyIffNotFalsy` | src/controllers/reportController.js:19 | A value is truthy exactly when it is none of `undefined`, `null`, `false`, `0` and `""`. |
| `AiService.AnalyzeMedicalText` | src/services/aiService.js:13-84 | The service throws exactly when building the prompt cannot convert the text to a string, with the `TypeError` message. Otherwise it returns the model's parsed reply, or the fixed failure value when the call or the parse throws. |
| `AiService.SentinelHasNoTests` | src/services/aiService.js:76-82 | The failure value has an empty `tests` array, of length 0, and `status: "error"`. |
| `ReportController.ErrorBody` | src/controllers/reportController.js:64 | A 400 or 500 carrying this body is an error response: exactly `status: "error"` and a string `message`. |
| `ReportController.Answer` | src/controllers/reportController.js:36-64 | After the AI step the response is a 200 (the "unprocessed" body or a body with `status: "ok"`) or a 500 error. |
| `ReportController.ProcessReport` | src/controllers/reportController.js:11-66 | Every response is either a 200 with the "unprocessed" body or a `status: "ok"` body, or a 400/500 with an error body. Thrown errors, including failed conversions at line 27 and in the prompt, become 500. |
| `ControllerProperties.NoInputRejected` | src/controllers/reportController.js:16-24 | No file and a missing or falsy `text` give 400 with "No input provided.". |
| `ControllerProperties.FileTakesPriority` | src/controllers/reportController.js:16-21 | With a file present, the response does not depend on the body `text`. |
| `ControllerProperties.OcrFailureIs500` | src/controllers/reportController.js:60-64 | An OCR failure gives 500 with "Failed to extract text from image.". |
| `ControllerProperties.AiSeesCleanedOcrText` | src/controllers/reportController.js:16-32 | With a file, the response depends on the model only through its reply to the cleaned OCR text. |
| `ControllerProperties.AiSeesBodyTextUnchanged` | src/controllers/reportController.js:19-32 | Without a file, the response depends on the model only through its reply to the body `text` exactly as given, and not on the OCR engine. |
| `ControllerProperties.ShortBodyTextRejected` | src/controllers/reportController.js:27-29 | Body text of one to four characters gives 400 with "Input text is too short.", whatever the model would reply. |
| `ControllerProperties.ShortOcrTextRejected` | src/controllers/reportController.js:27-29 | Cleaned OCR text shorter than five characters, empty included, gives 400 with "Input text is too short.", whatever the model would reply. |
| `ControllerProperties.LongTextReachesAi` | src/controllers/reportController.js:27-32 | Body text of five characters or more passes the length check, and the response is the answer to the model's reply to that text (or to the failure value). |
| `ControllerProperties.NumberPassesLengthCheck` | src/controllers/reportController.js:27-32 | A non-zero number as `text` has no `length`, so it passes the length check and goes to the model. |
| `ControllerProperties.PromptConversionIs500` | src/services/aiService.js:16-54 | An object `text` with its own `toString` member and no `length` makes the prompt's template literal throw. The response is 500 with "Cannot convert object to primitive value", whatever the model would reply. |
| `ControllerProperties.LengthConversionIs500` | src/controllers/reportController.js:27 | An object `text` whose `length` member cannot be converted makes `< 5` throw. The response is 500 with the same message. |
| `Json.LessThan` | src/controllers/reportController.js:27 | `x < 5` throws exactly when `x` cannot be converted to a primitive. `undefined` compares false, and a number compares by value. |
| `Json.OwnToStringThrows` | src/services/aiService.js:53 | An object with its own `toString` member cannot be converted to a primitive, whatever that member holds. |
| `ControllerProperties.MissingTestsUnprocessed` | src/controllers/reportController.js:36-41 | A reply whose `tests` is missing, falsy or an empty array gives 200 with exactly the "unprocessed" body. |
| `ControllerProperties.NonObjectReplyUnprocessed` | src/controllers/reportController.js:36-41 | A reply that is a string, number, Boolean or array gives 200 with the "unprocessed" body. |
| `ControllerProperties.NullReplyIs500` | src/controllers/reportController.js:36-64 | A `null` reply makes `aiResult.tests` throw, giving 500 with the `TypeError` message. |
| `ControllerProperties.OkBodyFields` | src/controllers/reportController.js:45-51 | With usable tests the body has exactly these keys: `tests` and `summary` (when present) copied, `explanations` defaulting to `[]`, `normalization_confidence` defaulting to `0`, and `status: "ok"`. |
| `ControllerProperties.AnswerIgnoresOtherKeys` | src/controllers/reportController.js:45-51 | The reply's own `status`, `hallucination_check` and every other member not copied have no effect on the response. |
| `ControllerProperties.SentinelUnprocessed` | src/controllers/reportController.js:36-41 | The AI service's failure value is answered with 200 and the "unprocessed" body. |
| `ControllerProperties.AiFailureNeverOk` | src/controllers/reportController.js:32-58 | When the model always fails, no response has `status: "ok"`. |
| `ControllerProperties.SentinelRejected` | src/utils/validation.js:32 | `ReportSchema` rejects the AI service's failure value. |
| `ControllerProperties.OkBodyValidIff` | src/utils/validation.js:26-33 | The "ok" body meets `ReportSchema` if and only if `tests` is an array of valid tests and `summary` is a string. |
| `ControllerProperties.UnprocessedBodyInvalid` | src/utils/validation.js:26-33 | The "unprocessed" body never meets `ReportSchema`. |
| `ControllerProperties.ValidBodyIsOk` | src/controllers/reportController.js:11-66 | Any response whose body meets `ReportSchema` is a 200 with `status: "ok"`. |
| `Validation.TestSchemaFields` | src/utils/validation.js:8-22 | A value meets `TestSchema` if and only if it is an object with string `name` and `unit`, number `value`, `status` among the five lower-case values, and a valid or absent `ref_range`. |
| `Validation.RefRangeFields` | src/utils/validation.js:18-21 | `ref_range` is valid if and only if it is absent, or an object whose `low` and `high` are each absent or a number. |
| `Validation.ReportSchemaFields` | src/utils/validation.js:26-33 | A value meets `ReportSchema` if and only if it is an object whose `tests` is an array (possibly empty) of valid tests, whose `summary` is a string, and whose `status` is `"ok"` or `"unprocessed"`. |
| `Validation.ObjIgnoresUnlistedKey` | src/utils/validation.js:8-33 | A `z.object` schema's verdict does not change when a key it does not list is added or changed. |
| `Validation.ReportIgnoresOtherKeys` | src/utils/validation.js:26-33 | Members other than `tests`, `summary` and `status`, such as `explanations`, do not affect `ReportSchema`. |
| `Validation.CapitalisedStatusRejected` | src/utils/validation.js:16 | A test whose `status` is `"Low"`, `"High"` or `"Normal"` is rejected: the comparison is case-sensitive. |
| `Validation.ErrorStatusRejected` | src/utils/validation.js:32 | A report with `status: "error"` is rejected. |

## Left out

- The OCR engine call (`Tesseract.recognize`) is a foreign call. It is the `recognize` parameter: the text it yields, or `None` when it throws.
- The Gemini client and model call, and `JSON.parse`, are foreign calls. They are the `generate` parameter: the parsed reply, or `None` when either throws.
- The prompt text of `analyzeMedicalText` is configuration data. The model passes the raw text itself to `generate`.
- Express and multer wiring, the health route, `listen` and the environment loading are plumbing and are not modelled.
- `async`/`await` and `console.error` are not modelled. The handler is sequential, so awaited results are plain inputs.
- `req.body` is taken to be an object. A request with no body at all would make `req.body.text` throw, and that case is not modelled.
- The model checks a JSON body's keys and values, but not the order of its keys.
- Cleaning is not idempotent, so no idempotence is claimed. `OcrExamples.CleanNotIdempotent` shows this with `"1 234 567"`. A second case, `"a\n.\nb"`, where line 33 re-creates a blank line after line 17 has run, is not proved.
- The handler's only guard on the model's reply is the empty-tests check at `src/controllers/reportController.js:36`. There is no check that the findings occur in the source text.
- Json.LessThan: a string, or an array whose conversion does not throw, is taken as `NaN`, where JavaScript would apply `ToNumber` to the string (or to the array's joined text). This can only matter when the body `text` is an object whose own `length` member is a string or such an array. `ToNumber` on strings is not modelled.
- Json.Member: reads only object members and the `length` of strings and arrays. Index keys and inherited properties are not modelled, since the handler reads none.
- OcrExamples.CompactsUnitExamples: states the unit examples for lines 25-29 only, not for the whole of `Clean`. The later rules' effect on those strings is not proved.
- Case folding for the `i` flag covers ASCII letters only. No non-ASCII character folds onto the ASCII letters these patterns use.
- Full Unicode whitespace is replaced by the fixed set named above.
- The output of Zod's `safeParse` (the data with unknown keys stripped) is not modelled, only whether parsing succeeds. The handler never calls it.
