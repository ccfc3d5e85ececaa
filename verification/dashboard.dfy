/**
 The decisions behind the dashboard page: what each feedback card shows
 (placeholders for missing fields, badge colours, the content excerpt, the
 theme list), the four urgency tallies, and the card list itself.
 */
module Dashboard {
  import opened Wrappers
  import opened Strings
  import opened Truncation
  import opened Labels
  import opened Themes

  /** One feedback row as read from storage; every text column may be missing. */
  datatype FeedbackItem = FeedbackItem(
    id: int,
    source: Option<string>,
    content: Option<string>,
    sentiment: Option<string>,
    themes: Option<string>,
    urgency: Option<string>,
    createdAt: Option<string>)

  /** The character budget of a card's content excerpt. */
  const ContentBudget := 150

  /** What a card displays, without its markup. */
  datatype Card = Card(
    source: string,
    sentiment: string,
    sentimentBadge: Badge,
    urgency: string,
    urgencyBadge: Badge,
    excerpt: string,
    themes: seq<string>)

  /**
   `renderFeedbackCard`: a missing or empty source or sentiment shows as
   "Unknown" and a missing or empty urgency as "Low"; the badges are coloured
   from the raw labels; the content is cut to 150 characters; the themes are
   parsed from the stored list.
   */
  function RenderCard(item: FeedbackItem): (c: Card)
    ensures Blank(item.source) ==> c.source == "Unknown"
    ensures !Blank(item.source) ==> c.source == item.source.value
    ensures Blank(item.sentiment) ==> c.sentiment == "Unknown"
    ensures !Blank(item.sentiment) ==> c.sentiment == item.sentiment.value
    ensures Blank(item.urgency) ==> c.urgency == "Low"
    ensures !Blank(item.urgency) ==> c.urgency == item.urgency.value
    ensures c.source != "" && c.sentiment != "" && c.urgency != ""
    ensures |c.excerpt| <= ContentBudget + |Ellipsis|
    ensures c.sentimentBadge == SentimentColor(item.sentiment)
    ensures c.urgencyBadge == UrgencyColor(item.urgency)
    ensures c.excerpt == Truncate(item.content, ContentBudget)
    ensures c.themes == ParseThemes(item.themes)
  {
    Card(
      OrElse(item.source, "Unknown"),
      OrElse(item.sentiment, "Unknown"),
      SentimentColor(item.sentiment),
      OrElse(item.urgency, "Low"),
      UrgencyColor(item.urgency),
      Truncate(item.content, ContentBudget),
      ParseThemes(item.themes))
  }

  // ---------------------------------------------------------------- urgency tallies

  /** The item's urgency is present and lower-cases to `level`; a missing urgency matches no level. */
  predicate HasUrgency(item: FeedbackItem, level: string) {
    LabelIs(item.urgency, level)
  }

  /** The urgency levels the dashboard tallies. */
  predicate Tallied(level: string) {
    level == "critical" || level == "high" || level == "medium" || level == "low"
  }

  /** An item whose lower-cased urgency is none of the tallied levels (a missing urgency included). */
  predicate Untallied(item: FeedbackItem) {
    !(item.urgency.Some? && Tallied(Lower(item.urgency.value)))
  }

  /** The `filter` behind one tally: the items whose urgency matches `level`, in their original order. */
  function FilterUrgency(items: seq<FeedbackItem>, level: string): (r: seq<FeedbackItem>)
    ensures |r| <= |items|
    ensures forall x :: x in r ==> x in items && HasUrgency(x, level)
    ensures forall x :: x in items && HasUrgency(x, level) ==> x in r
  {
    if items == [] then []
    else
      var rest := FilterUrgency(items[1..], level);
      if HasUrgency(items[0], level) then [items[0]] + rest else rest
  }

  /** The items no tally counts. */
  function FilterUntallied(items: seq<FeedbackItem>): (r: seq<FeedbackItem>)
    ensures |r| <= |items|
    ensures forall x :: x in r ==> x in items && Untallied(x)
  {
    if items == [] then []
    else
      var rest := FilterUntallied(items[1..]);
      if Untallied(items[0]) then [items[0]] + rest else rest
  }

  /** The positions of the items whose urgency matches `level`. */
  function MatchingPositions(items: seq<FeedbackItem>, level: string): set<int> {
    set i | 0 <= i < |items| && HasUrgency(items[i], level)
  }

  /** A tally counts matching positions, so an item listed twice is counted twice. */
  lemma {:induction false} FilterUrgencyCount(items: seq<FeedbackItem>, level: string)
    ensures |FilterUrgency(items, level)| == |MatchingPositions(items, level)|
    decreases |items|
  {
    if items == [] {
      assert MatchingPositions(items, level) == {};
    } else {
      var p, x := items[..|items| - 1], items[|items| - 1];
      assert items == p + [x];
      FilterUrgencyAppend(p, [x], level);
      FilterUrgencyCount(p, level);
      MatchingPositionsSnoc(p, x, level);
    }
  }

  /** Appending an item adds its position exactly when it matches. */
  lemma MatchingPositionsSnoc(p: seq<FeedbackItem>, x: FeedbackItem, level: string)
    ensures |MatchingPositions(p + [x], level)| == |MatchingPositions(p, level)| + |FilterUrgency([x], level)|
  {
    var sp, s := MatchingPositions(p, level), MatchingPositions(p + [x], level);
    assert [x][1..] == [];
    assert forall i :: 0 <= i < |p| ==> (p + [x])[i] == p[i];
    if HasUrgency(x, level) {
      assert s == sp + {|p|};
      assert |p| !in sp;
    } else {
      assert s == sp;
    }
  }

  /** The four figures of the stats row. */
  datatype UrgencyCounts = UrgencyCounts(critical: nat, high: nat, medium: nat, low: nat)

  function Sum(c: UrgencyCounts): nat {
    c.critical + c.high + c.medium + c.low
  }

  /**
   The four filter-counts of `renderDashboard`: each tally is the number of
   positions whose urgency matches its level, and together they never exceed
   the number of items.
   */
  function CountUrgencies(items: seq<FeedbackItem>): (r: UrgencyCounts)
    ensures r.critical == |FilterUrgency(items, "critical")| == |MatchingPositions(items, "critical")|
    ensures r.high == |FilterUrgency(items, "high")| == |MatchingPositions(items, "high")|
    ensures r.medium == |FilterUrgency(items, "medium")| == |MatchingPositions(items, "medium")|
    ensures r.low == |FilterUrgency(items, "low")| == |MatchingPositions(items, "low")|
    ensures Sum(r) + |FilterUntallied(items)| == |items|
    ensures r.critical <= |items| && r.high <= |items| && r.medium <= |items| && r.low <= |items|
  {
    UrgencyTallyPartition(items);
    FilterUrgencyCount(items, "critical");
    FilterUrgencyCount(items, "high");
    FilterUrgencyCount(items, "medium");
    FilterUrgencyCount(items, "low");
    UrgencyCounts(
      |FilterUrgency(items, "critical")|,
      |FilterUrgency(items, "high")|,
      |FilterUrgency(items, "medium")|,
      |FilterUrgency(items, "low")|)
  }

  /**
   Every item lands in exactly one of five places: the four tallies or the
   untallied rest.
   */
  lemma {:induction false} UrgencyTallyPartition(items: seq<FeedbackItem>)
    ensures |FilterUrgency(items, "critical")| + |FilterUrgency(items, "high")|
      + |FilterUrgency(items, "medium")| + |FilterUrgency(items, "low")|
      + |FilterUntallied(items)| == |items|
    decreases |items|
  {
    if items != [] {
      UrgencyTallyPartition(items[1..]);
    }
  }

  /** No item is counted under two different levels. */
  lemma TalliesDisjoint(items: seq<FeedbackItem>, a: string, b: string)
    requires a != b
    ensures forall x :: x in FilterUrgency(items, a) ==> x !in FilterUrgency(items, b)
  {
  }

  /** An item whose urgency is outside the four levels is counted in none of the tallies. */
  lemma UntalliedCountedNowhere(items: seq<FeedbackItem>, x: FeedbackItem, level: string)
    requires x in items && Untallied(x)
    requires Tallied(level)
    ensures x !in FilterUrgency(items, level)
    ensures x in FilterUntallied(items)
  {
    UntalliedIsKept(items, x);
  }

  lemma {:induction false} UntalliedIsKept(items: seq<FeedbackItem>, x: FeedbackItem)
    requires x in items && Untallied(x)
    ensures x in FilterUntallied(items)
    decreases |items|
  {
    if items[0] != x {
      UntalliedIsKept(items[1..], x);
    }
  }

  /** The tallies add up to the total exactly when every urgency, lower-cased, is one of the four levels. */
  lemma TalliesCoverAllIff(items: seq<FeedbackItem>)
    ensures Sum(CountUrgencies(items)) == |items| <==>
      forall x :: x in items ==> !Untallied(x)
  {
    if exists x :: x in items && Untallied(x) {
      var x :| x in items && Untallied(x);
      UntalliedIsKept(items, x);
    } else {
      NothingUntalliedLeft(items);
    }
  }

  lemma {:induction false} NothingUntalliedLeft(items: seq<FeedbackItem>)
    requires forall x :: x in items ==> !Untallied(x)
    ensures FilterUntallied(items) == []
    decreases |items|
  {
    if items != [] {
      assert items[0] in items;
      NothingUntalliedLeft(items[1..]);
    }
  }

  /**
   A missing or empty urgency is shown on its card as "Low", yet the "Low" tally
   only counts items whose stored urgency lower-cases to "low".
   */
  lemma MissingUrgencyShowsLowButIsNotTallied(items: seq<FeedbackItem>, item: FeedbackItem)
    requires item in items && Blank(item.urgency)
    ensures RenderCard(item).urgency == "Low"
    ensures item !in FilterUrgency(items, "low")
    ensures item in FilterUntallied(items)
  {
    UntalliedIsKept(items, item);
  }

  // ---------------------------------------------------------------- the page

  /** The cards of the feedback list: `map` of the card renderer over the items. */
  function RenderCards(items: seq<FeedbackItem>): (r: seq<Card>)
    ensures |r| == |items|
    ensures forall i :: 0 <= i < |items| ==> r[i] == RenderCard(items[i])
  {
    if items == [] then [] else [RenderCard(items[0])] + RenderCards(items[1..])
  }

  /** What `renderDashboard` decides: the total, the four urgency tallies and the cards. */
  datatype View = View(total: nat, counts: UrgencyCounts, cards: seq<Card>)

  /** The page shows one card per item, in the order the items were given. */
  function RenderDashboard(feedback: seq<FeedbackItem>): (v: View)
    ensures v.total == |feedback| == |v.cards|
    ensures v.counts == CountUrgencies(feedback)
    ensures Sum(v.counts) <= v.total
    ensures forall i :: 0 <= i < |feedback| ==> v.cards[i] == RenderCard(feedback[i])
  {
    View(|feedback|, CountUrgencies(feedback), RenderCards(feedback))
  }

  lemma {:induction false} FilterUrgencyAppend(a: seq<FeedbackItem>, b: seq<FeedbackItem>, level: string)
    ensures FilterUrgency(a + b, level) == FilterUrgency(a, level) + FilterUrgency(b, level)
    decreases |a|
  {
    if a != [] {
      assert (a + b)[1..] == a[1..] + b;
      FilterUrgencyAppend(a[1..], b, level);
    } else {
      assert a + b == b;
    }
  }

  lemma RenderCardsAppend(a: seq<FeedbackItem>, b: seq<FeedbackItem>)
    ensures RenderCards(a + b) == RenderCards(a) + RenderCards(b)
  {
    var l, r := RenderCards(a + b), RenderCards(a) + RenderCards(b);
    assert |l| == |r|;
    forall i | 0 <= i < |l|
      ensures l[i] == r[i]
    {
      if i < |a| {
        assert (a + b)[i] == a[i];
      } else {
        assert (a + b)[i] == b[i - |a|];
      }
    }
  }

  /**
   Rendering the concatenation of two batches gives the first batch's cards
   followed by the second's, and tallies that add up.
   */
  lemma DashboardOfConcatenation(a: seq<FeedbackItem>, b: seq<FeedbackItem>)
    ensures RenderDashboard(a + b).cards == RenderDashboard(a).cards + RenderDashboard(b).cards
    ensures RenderDashboard(a + b).counts.critical == RenderDashboard(a).counts.critical + RenderDashboard(b).counts.critical
    ensures RenderDashboard(a + b).counts.high == RenderDashboard(a).counts.high + RenderDashboard(b).counts.high
    ensures RenderDashboard(a + b).counts.medium == RenderDashboard(a).counts.medium + RenderDashboard(b).counts.medium
    ensures RenderDashboard(a + b).counts.low == RenderDashboard(a).counts.low + RenderDashboard(b).counts.low
  {
    RenderCardsAppend(a, b);
    FilterUrgencyAppend(a, b, "critical");
    FilterUrgencyAppend(a, b, "high");
    FilterUrgencyAppend(a, b, "medium");
    FilterUrgencyAppend(a, b, "low");
  }
}
