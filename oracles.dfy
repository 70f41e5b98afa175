/** The AI service the query service and the ingester call: embedding, batch
    embedding, classification, question answering and custom-criteria matching
    are remote model calls, given here as functions the services are built with.
    What the service does when a model reply does not parse is kept: it falls
    back to a fixed classification. */
module Oracles {
  import opened Wrappers
  import opened Models

  datatype AIService = AIService(
    embed: string -> seq<real>,
    embedBatch: seq<string> -> seq<seq<real>>,
    classify: (string, Option<UserProfile>, Option<int>, string) -> Classification,
    answer: (string, seq<FeedbackItem>) -> string,
    customMatch: (seq<FeedbackItem>, string) -> seq<(string, bool, string)>)

  /** The topic taxonomy of the configuration; nothing checks a classification's
      topics against it. */
  const Topics: seq<string> := [
    "bug", "feature_request", "pricing", "ux", "performance", "onboarding", "support",
    "documentation", "integration", "security", "billing", "mobile", "api"]

  /** The classification `classify_feedback` returns when the model's reply is
      not the JSON it asked for. */
  function FallbackClassification(): (c: Classification)
    ensures c.sentiment == Neutral && c.urgency == Low && c.intent == GeneralFeedback
    ensures c.confidence == 0.0
    ensures |c.topics| == 1 && c.topics[0] !in Topics
  {
    Classification(Neutral, ["general_feedback"], Low, GeneralFeedback,
                   "Classification failed - manual review needed", 0.0)
  }

  /** `reclassify_with_custom_prompt` answers once per item, in order, under the
      item's id (a reply that does not parse becomes a non-match). */
  ghost predicate MatchesPerItem(ai: AIService) {
    forall items: seq<FeedbackItem>, criteria: string ::
      |ai.customMatch(items, criteria)| == |items|
      && forall k :: 0 <= k < |items| ==> ai.customMatch(items, criteria)[k].0 == items[k].id
  }
}
