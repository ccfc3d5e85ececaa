# Feedback dashboard helpers, modelled in Dafny

The feedback dashboard is a small web worker that reads customer-feedback rows
(source, content, sentiment label, comma-separated themes, urgency label) and
renders them as an HTML page: a stats row with the total and four urgency
tallies, then one card per feedback item. This project models the decisions
that page is built from, as pure functions over immutable values:

- `Truncation` — `truncate(str, maxLength)`: the bounded content excerpt.
- `Labels` — `getSentimentColor` / `getUrgencyColor`: case-insensitive
  classification of free-text labels into badge colours with a default bucket.
- `Themes` — the theme list of a card: split on commas, trim every piece.
- `Dashboard` — the feedback row, what a card shows (placeholders for missing
  fields, badges, excerpt, themes), the four urgency tallies and the list of
  cards in input order.
- `Strings` — ASCII stand-ins for `toLowerCase`, `trim`, the falsy test
  `!str` and the default operator `str || d`; `Wrappers` — `Option`.

Nullable columns are `Option<string>`. JavaScript's `!str` and `str || d` treat
the empty string like a missing value; `Strings.Blank` captures exactly that,
so an empty source shows as "Unknown" just as a missing one does.

A card whose themes field is missing or empty shows no theme badges at all
(src/index.ts:43).

One observation the model makes precise
(`Dashboard.MissingUrgencyShowsLowButIsNotTallied`): a card whose urgency is
missing or empty shows the label "Low", but the "Low" tally only counts items
whose stored urgency lower-cases to "low", so such an item is in no tally at all.
A worked example (`Truncation.TruncateCanLengthen`): content just over the
budget becomes longer, not shorter, once the ellipsis is appended.

## Model

| member | source | states |
|---|---|---|
| `Truncation.Truncate` | src/index.ts:35-38 | Missing or empty input gives "" with no marker; input no longer than `maxLength` is returned unchanged; longer input gives its first `max(maxLength, 0)` characters followed by "...", so the result has length `max(maxLength, 0) + 3`; a negative `maxLength` keeps nothing, as `substring` clamps it; the result never exceeds `max(maxLength, 0) + 3` characters |
| `Truncation.TruncateUnchangedIff` | src/index.ts:37 | For any content and non-negative budget, the excerpt equals the content exactly when the content fits the budget or already is a budget-length prefix followed by "..." |
| `Truncation.TruncateCanLengthen` | src/index.ts:37 | Example of `Truncate`'s cut case: content one character over budget comes back two characters longer |
| `Strings.Lower` | src/index.ts:12 | ASCII `toLowerCase` keeps the length and lowers every character in place |
| `Strings.LowerEqualsIff` | src/index.ts:12-16 | Lowering a label yields a lower-case word exactly when the label spells that word in any mixture of upper and lower case |
| `Labels.SentimentColor` | src/index.ts:11-20 | Every sentiment, missing included, gets one of the three sentiment badges |
| `Labels.SentimentColorSpec` | src/index.ts:11-19 | Green exactly for labels spelling "positive" in any case, red exactly for "negative" in any case, yellow exactly for everything else including a missing or empty label |
| `Labels.PositiveIgnoresCase` | src/index.ts:12-14 | Example of `SentimentColorSpec`: "Positive", "POSITIVE" and "positive" all give the green badge |
| `Labels.NegativeAndBlankSentiment` | src/index.ts:12-18 | Example of `SentimentColorSpec`: "NeGaTiVe" gives red; an empty or missing sentiment gives the yellow default |
| `Labels.UrgencyColor` | src/index.ts:22-33 | Every urgency, missing included, gets one of the four urgency badges |
| `Labels.UrgencyColorSpec` | src/index.ts:22-32 | Red, orange and yellow exactly for labels spelling "critical", "high" and "medium" in any case; gray exactly for everything else |
| `Labels.LowUrgencyIsDefault` | src/index.ts:23-31 | Example of `UrgencyColorSpec`: "low" in any case, and a missing urgency, fall to the gray default |
| `Strings.Trim` | src/index.ts:43 | The trimmed piece is the slice left after removing a whitespace run from each end, and neither of its ends is whitespace |
| `Strings.TrimIdempotent` | src/index.ts:43 | Trimming leaves already-trimmed text unchanged, so trimming twice equals trimming once |
| `Themes.Split` | src/index.ts:43 | Splitting on a separator gives one more piece than there are separators, no piece contains the separator, and joining the pieces with the separator restores the input |
| `Themes.SplitJoin` | src/index.ts:43 | Joining separator-free pieces and splitting again returns the same pieces in order |
| `Themes.ParseThemes` | src/index.ts:43 | Missing or empty themes give the empty list; otherwise there are (number of commas + 1) themes, the i-th being the i-th comma-separated piece trimmed |
| `Themes.ParsedThemesAreClean` | src/index.ts:43 | No parsed theme contains a comma or starts or ends with whitespace |
| `Themes.ParseThemesRoundTrip` | src/index.ts:43 | Trimmed, comma-free themes stored joined by commas parse back to the same list in the same order |
| `Dashboard.RenderCard` | src/index.ts:40-58 | A missing or empty source or sentiment shows "Unknown", a missing or empty urgency shows "Low", present values show verbatim, so no shown label is empty; badges are coloured from the raw labels; the excerpt is the content truncated at 150, at most 153 characters; the themes are the parsed list |
| `Dashboard.FilterUrgency` | src/index.ts:71-74 | The filter keeps exactly the items whose lower-cased urgency equals the level, and is never longer than its input |
| `Dashboard.CountUrgencies` | src/index.ts:69-75 | The critical, high, medium and low tallies are each the length of that level's filter and equal the number of positions whose lower-cased urgency is that level; each is at most the total, and the four tallies plus the untallied items add up to the total |
| `Dashboard.FilterUrgencyCount` | src/index.ts:71-74 | A filter's length is the number of positions whose urgency matches the level, so an item listed twice counts twice |
| `Dashboard.UrgencyTallyPartition` | src/index.ts:70-75 | Every item is counted exactly once across the critical, high, medium and low tallies and the untallied rest |
| `Dashboard.TalliesDisjoint` | src/index.ts:71-74 | No item appears in the tallies of two different levels |
| `Dashboard.UntalliedCountedNowhere` | src/index.ts:71-74 | An item whose lower-cased urgency is outside the four levels, or missing, is in none of the four tallies |
| `Dashboard.TalliesCoverAllIff` | src/index.ts:69-75 | The four tallies sum to the total exactly when every item's lower-cased urgency is one of the four levels |
| `Dashboard.FilterUrgencyAppend` | src/index.ts:71-74 | Filtering a concatenation is filtering each part and concatenating, so the filter keeps input order |
| `Dashboard.MissingUrgencyShowsLowButIsNotTallied` | src/index.ts:54 | An item of any list whose urgency is missing or empty shows "Low" on its card (line 54), yet is not in the Low filter (line 74) and is among the untallied items |
| `Dashboard.RenderCards` | src/index.ts:122 | One card per item, the i-th card rendered from the i-th item |
| `Dashboard.RenderCardsAppend` | src/index.ts:122 | The cards of a concatenation are the cards of each part in order |
| `Dashboard.RenderDashboard` | src/index.ts:68-122 | The total is the number of items, the tallies are the four filter-counts of the items, there is exactly one card per item in input order, and the tallies sum to at most the total |
| `Dashboard.DashboardOfConcatenation` | src/index.ts:69-122 | Rendering two batches together gives the first batch's cards followed by the second's, and each tally is the sum of the two batches' tallies |

## Left out

- The `fetch` handler (src/index.ts:131-150): URL routing, the database query, the `results || []` default, response construction and the 500/404 responses are I/O plumbing.
- The HTML and Tailwind markup of `renderFeedbackCard` and `renderDashboard`, including the `join('')` of the card and theme fragments: the model keeps what is shown and in which order, not the template text.
- `Strings.Lower`: lowers ASCII letters only; JavaScript's `toLowerCase` also lowers non-ASCII letters.
- `Strings.Trim`: strips ASCII whitespace and line terminators only; JavaScript's `trim` also strips Unicode spaces, the byte-order mark U+FEFF, and the line and paragraph separators.
- `Truncation.Truncate`: lengths and prefixes count Unicode scalar values, not UTF-16 code units as `length` and `substring` do; `maxLength` is an integer, not an arbitrary JavaScript number.
- The row's `id` and `created_at` columns are carried but never shown or used by the modelled code.
- The insights and chat pipeline (digest building, prompt construction, concurrent model calls, fallback text, sentiment counts) is not part of `src/index.ts` and is not part of this model.
