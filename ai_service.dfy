/**
 * services/aiService.ts: the two AI wrappers as total functions of what
 * api.post resolved to (null standing for a failed call). A failed call, an
 * `error` key, or a reply the `in` operator cannot inspect yields a fixed
 * fallback object; every other reply is returned unchanged.
 */
module AiService {
  import opened Wrappers
  import opened Json

  datatype Provider = Gemini | OpenAi

  function ProviderName(p: Provider): string {
    match p
    case Gemini => "gemini"
    case OpenAi => "openai"
  }

  /** The body generateTripPlan posts: `{ provider, request }`, the provider defaulting to gemini. */
  function TripPlanBody(request: Value, provider: Provider := Gemini): (body: Value)
    ensures body.Obj? && body.fields.Keys == {"provider", "request"}
    ensures body.fields["provider"] == Str(ProviderName(provider))
    ensures body.fields["request"] == request
  {
    Obj(map["provider" := Str(ProviderName(provider)), "request" := request])
  }

  /** The body getDestinationInsights posts: `{ provider, destination }`. */
  function InsightsBody(destination: string, provider: Provider := Gemini): (body: Value)
    ensures body.Obj? && body.fields.Keys == {"provider", "destination"}
    ensures body.fields["provider"] == Str(ProviderName(provider))
    ensures body.fields["destination"] == Str(destination)
  {
    Obj(map["provider" := Str(ProviderName(provider)), "destination" := Str(destination)])
  }

  /** Both wrappers called with no provider post on behalf of gemini. */
  lemma DefaultProviderIsGemini(request: Value, destination: string)
    ensures TripPlanBody(request).fields["provider"] == Str("gemini")
    ensures InsightsBody(destination).fields["provider"] == Str("gemini")
  {
  }

  const NoResponse := "No response from server"

  /**
   * The message of the TypeError that `'error' in response` raises when the
   * reply is a string, a number or true (the wording of the V8 engine).
   */
  function InOperatorError(response: Value): string
    requires !response.Obj? && !response.Arr?
  {
    "Cannot use 'in' operator to search for 'error' in " + ToJsString(response).value
  }

  /**
   * The message of the error raised inside the try block, or None when the
   * reply is returned: `!response` throws, `'error' in response` throws
   * `new Error(response.error)` (or the TypeError of String() when that
   * value cannot be converted), and `in` itself throws on a primitive.
   */
  function FailureReason(response: Value): Option<string> {
    if !Truthy(response) then Some(NoResponse)
    else if response.Obj? then
      if "error" in response.fields then Some(ToJsString(response.fields["error"]).GetOr(ConversionError)) else None
    else if response.Arr? then None
    else Some(InOperatorError(response))
  }

  /** The itinerary generateTripPlan returns in place of a failure. */
  function OfflinePlan(summary: string): (plan: Value)
    ensures plan.Obj? && "error" !in plan.fields
    ensures plan.fields.Keys == {"tripTitle", "summary", "estimatedCost", "itinerary"}
    ensures plan.fields["tripTitle"] == Str("AI Planner Offline")
    ensures plan.fields["summary"] == Str(summary)
    ensures plan.fields["estimatedCost"] == Str("N/A")
    ensures plan.fields["itinerary"].Arr? && |plan.fields["itinerary"].items| == 1
    ensures var day := plan.fields["itinerary"].items[0];
            day.Obj? && day.fields.Keys == {"day", "title", "activities"}
            && day.fields["day"] == Num(1) && day.fields["title"] == Str("Configuration Error")
            && day.fields["activities"].Arr? && |day.fields["activities"].items| == 1
  {
    Obj(map[
      "tripTitle" := Str("AI Planner Offline"),
      "summary" := Str(summary),
      "estimatedCost" := Str("N/A"),
      "itinerary" := Arr([Obj(map[
        "day" := Num(1),
        "title" := Str("Configuration Error"),
        "activities" := Arr([Str("Could not connect to the AI service.")])])])])
  }

  /** generateTripPlan, given what api.post resolved to. */
  function GenerateTripPlan(response: Value): (plan: Value)
    ensures response == Null ==> plan == OfflinePlan(NoResponse)
    ensures !Truthy(response) ==> plan == OfflinePlan(NoResponse)
    ensures response.Obj? && "error" in response.fields && ToJsString(response.fields["error"]).Some? ==>
              plan == OfflinePlan(ToJsString(response.fields["error"]).value)
    ensures response.Obj? && "error" in response.fields && ToJsString(response.fields["error"]).None? ==>
              plan == OfflinePlan(ConversionError)
    ensures response.Obj? && "error" !in response.fields ==> plan == response
    ensures response.Arr? ==> plan == response
    ensures Truthy(response) && !response.Obj? && !response.Arr? ==> plan == OfflinePlan(InOperatorError(response))
  {
    match FailureReason(response)
    case Some(message) => OfflinePlan(message)
    case None => response
  }

  /** The insight getDestinationInsights returns in place of a failure. */
  const InsightsUnavailable: Value := Obj(map[
    "content" := Str("## Error\nWe could not fetch live details at this moment. Please contact us directly for information."),
    "sources" := Arr([])])

  /** getDestinationInsights, given what api.post resolved to. */
  function GetDestinationInsights(response: Value): (insight: Value)
    ensures !Truthy(response) ==> insight == InsightsUnavailable
    ensures response.Obj? && "error" in response.fields ==> insight == InsightsUnavailable
    ensures response.Obj? && "error" !in response.fields ==> insight == response
    ensures response.Arr? ==> insight == response
    ensures Truthy(response) && !response.Obj? && !response.Arr? ==> insight == InsightsUnavailable
    ensures insight == InsightsUnavailable || insight == response
  {
    if FailureReason(response).Some? then InsightsUnavailable else response
  }

  /**
   * A wrapper's result is always of the success shape: handing it back to the
   * same wrapper returns it unchanged, so a caller never has to branch on failure.
   */
  lemma WrappersIdempotent(response: Value)
    ensures GenerateTripPlan(GenerateTripPlan(response)) == GenerateTripPlan(response)
    ensures GetDestinationInsights(GetDestinationInsights(response)) == GetDestinationInsights(response)
  {
  }

  /** An `error` object with its own toString makes `new Error` raise, and the summary is that TypeError's text. */
  lemma UnconvertibleErrorSummary(inner: Value)
    ensures GenerateTripPlan(Obj(map["error" := Obj(map["toString" := inner])])).fields["summary"] == Str(ConversionError)
  {
  }

  /** The fallback plan's summary is the backend's `error` text as it is, an empty one included. */
  lemma ErrorTextBecomesSummary(e: string)
    ensures GenerateTripPlan(Obj(map["error" := Str(e)])).fields["summary"] == Str(e)
  {
  }
}
