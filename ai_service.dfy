/**
 * `analyzeMedicalText`: the language-model call is abstracted to `generate`, which yields
 * the parsed JSON reply or `None` when the call or `JSON.parse` throws. In that case the
 * service returns a fixed value instead of throwing. `generate` is handed the raw text
 * itself; the prompt around it is fixed text.
 */
module AiService {
  import opened Wrappers
  import opened Json

  /** The value returned when the model call or the parse fails. */
  const Sentinel: Json :=
    JObj(map[
      "tests" := JArr([]),
      "summary" := JStr("Error processing report."),
      "explanations" := JArr([]),
      "normalization_confidence" := JNum(0.0),
      "status" := JStr("error")
    ])

  /**
   * The prompt is built with a template literal before the `try`, so a text that cannot be
   * converted to a string makes the service throw. Otherwise the result is the model's reply
   * when there is one, and the sentinel when the call or the parse fails.
   */
  function AnalyzeMedicalText(text: Json, generate: Json -> Option<Json>): (r: Result<Json>)
    ensures r.Err? <==> ConversionThrows(text)
    ensures r.Err? ==> r.message == ConversionMessage
    ensures r.Ok? && generate(text).Some? ==> r.value == generate(text).value
    ensures r.Ok? && generate(text).None? ==> r.value == Sentinel
  {
    if ConversionThrows(text) then Err(ConversionMessage)
    else
      match generate(text)
      case Some(reply) => Ok(reply)
      case None => Ok(Sentinel)
  }

  /** The sentinel's `tests` is an empty array and its `status` is `"error"`. */
  lemma SentinelHasNoTests()
    ensures Member(Sentinel, "tests") == Some(JArr([]))
    ensures Member(Member(Sentinel, "tests").value, "length") == Some(JNum(0.0))
    ensures Member(Sentinel, "status") == Some(JStr("error"))
  {
  }
}
