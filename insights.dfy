/**
 * The AI-insights section: the result pair of `gemini_insights` and the
 * canned suggestions shown when it does not succeed.
 */
module Insights {
  import opened Wrappers

  /** What the text-generation call gave back: a completion, or the message of the exception it raised. */
  datatype Reply = Completion(text: string) | Raised(message: string)

  /** The fixed explanation returned when the service is not configured. */
  const NotConfiguredMessage: string := "Gemini not configured — showing suggestions."

  /** The client library imported and an API key that is set and non-empty (Python truthiness). */
  predicate Configured(libraryAvailable: bool, apiKey: Option<string>)
  {
    libraryAvailable && apiKey.Some? && apiKey.value != ""
  }

  /**
   * The insight request of lines 199-216: (success, text). The service's
   * reply is a parameter; it is consulted only once the guard has passed.
   */
  function GeminiInsights(libraryAvailable: bool, apiKey: Option<string>, reply: Reply): (r: (bool, string))
    ensures !Configured(libraryAvailable, apiKey) ==> r == (false, NotConfiguredMessage)
    ensures r.0 <==> Configured(libraryAvailable, apiKey) && reply.Completion?
    ensures r.0 ==> r.1 == reply.text
    ensures Configured(libraryAvailable, apiKey) && reply.Raised? ==> r == (false, "Gemini error: " + reply.message)
  {
    if !libraryAvailable || apiKey.None? || apiKey.value == "" then (false, NotConfiguredMessage)
    else
      match reply
      case Completion(text) => (true, text)
      case Raised(message) => (false, "Gemini error: " + message)
  }

  /** The four canned suggestions of the fallback. */
  const FallbackSuggestions: seq<string> := [
    "- Offer a bundle discount for Wireless Earbuds + Bluetooth Speaker.",
    "- Run retargeting for customers who viewed top product.",
    "- Create limited-time free-shipping for orders above $100.",
    "- Improve product page descriptions and add tutorial videos."
  ]

  /** `picks` are k distinct positions below `size`: one outcome of drawing k items without replacement. */
  predicate IsSample(picks: seq<nat>, size: nat, k: nat)
  {
    && |picks| == k
    && (forall i :: 0 <= i < |picks| ==> picks[i] < size)
    && (forall i, j :: 0 <= i < j < |picks| ==> picks[i] != picks[j])
  }

  /** The fallback of lines 226-233: three distinct suggestions, with the random positions given as `picks`. */
  function SampleSuggestions(picks: seq<nat>): (r: seq<string>)
    requires IsSample(picks, |FallbackSuggestions|, 3)
    ensures |r| == 3
    ensures forall i :: 0 <= i < |r| ==> r[i] in FallbackSuggestions
    ensures forall i, j :: 0 <= i < j < |r| ==> r[i] != r[j]
  {
    var s := FallbackSuggestions;
    seq(3, i requires 0 <= i < 3 => s[picks[i]])
  }
}
