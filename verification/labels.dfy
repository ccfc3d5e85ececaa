/**
 The colour decisions for the two badges of a feedback card. Labels are free
 text; they are compared case-insensitively against a few known words, and
 everything else, a missing label included, falls to a default colour.
 */
module Labels {
  import opened Wrappers
  import opened Strings

  /** The background and text classes a badge is drawn with. */
  datatype Badge = Badge(bg: string, text: string)

  const PositiveBadge := Badge("bg-green-100", "text-green-800")
  const NegativeBadge := Badge("bg-red-100", "text-red-800")
  const OtherSentimentBadge := Badge("bg-yellow-100", "text-yellow-800")

  const CriticalBadge := Badge("bg-red-500", "text-white")
  const HighBadge := Badge("bg-orange-500", "text-white")
  const MediumBadge := Badge("bg-yellow-400", "text-yellow-900")
  const OtherUrgencyBadge := Badge("bg-gray-300", "text-gray-700")

  /** The label is present and lower-cases to `word`; a missing label matches no word. */
  predicate LabelIs(tag: Option<string>, word: string) {
    tag.Some? && Lower(tag.value) == word
  }

  /** The sentiment badge: green for positive, red for negative, yellow for anything else. */
  function SentimentColor(sentiment: Option<string>): (r: Badge)
    ensures r == PositiveBadge || r == NegativeBadge || r == OtherSentimentBadge
  {
    if LabelIs(sentiment, "positive") then PositiveBadge
    else if LabelIs(sentiment, "negative") then NegativeBadge
    else OtherSentimentBadge
  }

  /** The urgency badge: its own colour for critical, high and medium, gray for anything else. */
  function UrgencyColor(urgency: Option<string>): (r: Badge)
    ensures r == CriticalBadge || r == HighBadge || r == MediumBadge || r == OtherUrgencyBadge
  {
    if LabelIs(urgency, "critical") then CriticalBadge
    else if LabelIs(urgency, "high") then HighBadge
    else if LabelIs(urgency, "medium") then MediumBadge
    else OtherUrgencyBadge
  }

  /** A present label spelled `w` in any mixture of cases. */
  predicate Spells(tag: Option<string>, w: string) {
    tag.Some? && SameIgnoringCase(tag.value, w)
  }

  /** Each sentiment colour is chosen exactly for the labels that spell its word, in any case. */
  lemma SentimentColorSpec(sentiment: Option<string>)
    ensures SentimentColor(sentiment) == PositiveBadge <==> Spells(sentiment, "positive")
    ensures SentimentColor(sentiment) == NegativeBadge <==> Spells(sentiment, "negative")
    ensures SentimentColor(sentiment) == OtherSentimentBadge <==>
      !Spells(sentiment, "positive") && !Spells(sentiment, "negative")
  {
    if sentiment.Some? {
      LowerEqualsIff(sentiment.value, "positive");
      LowerEqualsIff(sentiment.value, "negative");
    }
  }

  /** Each urgency colour is chosen exactly for the labels that spell its word; "low" is not one of them. */
  lemma UrgencyColorSpec(urgency: Option<string>)
    ensures UrgencyColor(urgency) == CriticalBadge <==> Spells(urgency, "critical")
    ensures UrgencyColor(urgency) == HighBadge <==> Spells(urgency, "high")
    ensures UrgencyColor(urgency) == MediumBadge <==> Spells(urgency, "medium")
    ensures UrgencyColor(urgency) == OtherUrgencyBadge <==>
      !Spells(urgency, "critical") && !Spells(urgency, "high") && !Spells(urgency, "medium")
  {
    if urgency.Some? {
      LowerEqualsIff(urgency.value, "critical");
      LowerEqualsIff(urgency.value, "high");
      LowerEqualsIff(urgency.value, "medium");
    }
  }

  /** Case does not matter: "Positive", "POSITIVE" and "positive" are all green. */
  lemma PositiveIgnoresCase()
    ensures SentimentColor(Some("Positive")) == PositiveBadge
    ensures SentimentColor(Some("POSITIVE")) == PositiveBadge
    ensures SentimentColor(Some("positive")) == PositiveBadge
  {
    assert Lower("Positive") == "positive";
    assert Lower("POSITIVE") == "positive";
  }

  /** "NeGaTiVe" is red; an empty or missing sentiment is the yellow default. */
  lemma NegativeAndBlankSentiment()
    ensures SentimentColor(Some("NeGaTiVe")) == NegativeBadge
    ensures SentimentColor(Some("")) == OtherSentimentBadge
    ensures SentimentColor(None) == OtherSentimentBadge
  {
    assert Lower("NeGaTiVe") == "negative";
  }

  /** "Low", however spelled, and a missing urgency both get the gray default. */
  lemma LowUrgencyIsDefault(s: string)
    requires SameIgnoringCase(s, "low")
    ensures UrgencyColor(Some(s)) == OtherUrgencyBadge
    ensures UrgencyColor(None) == OtherUrgencyBadge
  {
    UrgencyColorSpec(Some(s));
  }
}
