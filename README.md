# Match statistics of the roommate-matching results page

This project models the small amount of logic in the matchmate-compass results
page. The page receives a list of match records. Each record has an anonymised
id, an overall score, five criterion scores (cleanliness, sleep schedule, social
habits, lifestyle, food) and the pass key of a chat room. From that list the
page computes the following:

- **Analytics dashboard** (`MatchAnalytics`):
  - the rounded mean of each criterion, for the radar chart;
  - one point per match with its score and 1-based rank, for the line chart;
  - the minimum, maximum and rounded mean of each criterion, for the bar chart.
- **Page summary** (`MatchMeter`):
  - the total number of matches;
  - the rounded mean of the overall scores;
  - the "best" score, which is the first record's score;
  - one card per match, ranked by position;
  - the notification text shown when a conversation is started.
- **Match card** (`MatchCard`):
  - the colour tier of a score, which is written twice: once as
    `getScoreColor` and once inline for the bars;
  - the rank badge;
  - the five-row criteria breakdown;
  - the action that hands the match's pass key to the message handler.

Modules:

- `Wrappers` (`wrappers.dfy`): the `Option` type, for values that JavaScript
  leaves `undefined`.
- `Statistics` (`statistics.dfy`): the arithmetic.
  - `reduce` as a left fold, with an independent `Sum` it is proved equal to.
  - `Math.round(sum / n)` as `(2*sum + n) / (2*n)`. Dafny's `/` is Euclidean
    division; because the divisor `2*n` is positive, it rounds down, so this equals `Math.round` (that is, `floor(x + 1/2)`) for every
    integer sum, negative sums included. It is characterised by
    `IsRoundedMean`: `r - 1/2 <= sum/n < r + 1/2`.
  - `Math.min(...)` and `Math.max(...)` over a spread list.
  - Bounds, uniqueness and order-independence lemmas.
- `Text` (`text.dfy`):
  - `String.prototype.split` with a one-character separator, with its inverse
    `Join` and round trips in both directions;
  - the decimal text of an integer in a template literal, with a parser that
    inverts it.
- `MatchData` (`match_data.dfy`): the record, the `Criterion` enumeration in the
  key order of `criteria_scores`, and the accessor `Score`.
- `MatchAnalytics` (`match_analytics.dfy`): `avgCriteriaData`,
  `matchScoreData` and `criteriaVariationData`.
- `MatchCard` (`match_card.dfy`): `getScoreColor`, the inline bar class,
  `getRankBadge`, the criteria breakdown and the action button.
- `MatchMeter` (`match_meter.dfy`): the page's fixed result set, `averageMatch`,
  the best match, the ranked cards, the total, and `handleMessage`'s toast.

Two behaviours of the code are worth stating outright:

- The rank badge has table entries for ranks 1, 2 and 3. The `#<rank> Match` fallback applies to every other rank, including 0 and negative ranks. `GetRankBadge` does the same.
- "Best Match" is `matches[0]?.match_score`. Optional chaining makes it `undefined` on an empty list. `BestMatch` therefore returns an `Option` and has no precondition. It never computes a maximum; it relies on the producer of the list sorting it by descending score.

## Model

| member | source | states |
|---|---|---|
| `Statistics.Mapped` | src/components/MatchAnalytics.tsx:62 | `xs.map(f)` keeps the length and sends element i to `f(xs[i])` |
| `Statistics.ReduceSum` | src/components/MatchAnalytics.tsx:26 | the `reduce((sum, match) => sum + f(match), acc)` left fold equals `acc` plus the reference sum of the mapped list |
| `Statistics.RoundDiv` | src/components/MatchAnalytics.tsx:26 | `Math.round(total / n)` is the integer r with `r - 1/2 <= total/n < r + 1/2` (round half up) |
| `Statistics.RoundedMeanUnique` | src/components/MatchAnalytics.tsx:26 | only one integer satisfies the round-half-up characterisation, so it determines the result |
| `Statistics.Minimum` | src/components/MatchAnalytics.tsx:62 | `Math.min(...xs)` of a non-empty list is an element of the list and is at most every element |
| `Statistics.Maximum` | src/components/MatchAnalytics.tsx:63 | `Math.max(...xs)` of a non-empty list is an element of the list and is at least every element |
| `Statistics.SumBounds` | src/components/MatchAnalytics.tsx:26 | a list with elements in [lo, hi] sums to between n*lo and n*hi |
| `Statistics.RoundedMeanBetween` | src/components/MatchAnalytics.tsx:64 | the rounded mean of a total between n*lo and n*hi lies in [lo, hi] |
| `Statistics.MeanWithinRange` | src/components/MatchAnalytics.tsx:62-64 | the rounded mean of a non-empty list lies between its minimum and its maximum |
| `Statistics.SingletonStatistics` | src/components/MatchAnalytics.tsx:62-64 | for a one-element list the minimum, maximum and rounded mean all equal the element |
| `Statistics.SumConcat` | src/components/MatchAnalytics.tsx:26 | the sum of a concatenation is the sum of the sums |
| `Statistics.SumMappedPermutation` | src/pages/MatchMeter.tsx:92 | the sum of `f` over a list is the same for any permutation of that list |
| `Text.Split` | src/components/MatchAnalytics.tsx:53 | `split(sep)` gives at least one part, no part contains the separator, and joining the parts with the separator gives back the string |
| `Text.SplitJoin` | src/components/MatchAnalytics.tsx:53 | splitting the join of separator-free parts gives back exactly those parts |
| `Text.PartAt` | src/components/MatchAnalytics.tsx:53 | `split(sep)[index]` is present exactly when the split has more than `index` parts, and then it is part `index` of the split |
| `Text.NatToDecimal` | src/components/MatchCard.tsx:55 | the decimal text of a natural number is a non-empty digit string that starts with `0` only when it is exactly `0`, and it denotes the number |
| `Text.IntToDecimal` | src/components/MatchCard.tsx:55 | a non-negative integer is written as its shortest decimal digits; a negative one as `-` followed by the shortest decimal digits of its absolute value |
| `Text.ParseIntToDecimal` | src/components/MatchCard.tsx:55 | parsing the decimal text of an integer gives back the integer |
| `Text.IntToDecimalInjective` | src/components/MatchCard.tsx:55 | distinct integers have distinct decimal texts |
| `MatchData.ScoreReadsField` | src/components/MatchAnalytics.tsx:7-13 | the accessor `Score` returns, for each criterion, the `criteria_scores` field of that name |
| `MatchData.CriteriaEnumerated` | src/components/MatchAnalytics.tsx:7-13 | the five criteria are listed in key order, each exactly once |
| `MatchAnalytics.Column` | src/components/MatchAnalytics.tsx:62 | `matches.map(m => m.criteria_scores[c])` has one entry per match, entry i being match i's score for c |
| `MatchAnalytics.CriterionAverage` | src/components/MatchAnalytics.tsx:26 | a criterion's average is round-half-up of the sum of that criterion over all matches divided by their number |
| `MatchAnalytics.AvgCriteriaData` | src/components/MatchAnalytics.tsx:23-49 | exactly five radar points in the order Cleanliness, Sleep, Social, Lifestyle, Food; each has `fullMark` 100 and a value that is the rounded mean of its criterion |
| `MatchAnalytics.SecondPartIsSecondSegment` | src/components/MatchAnalytics.tsx:53 | part 1 of a split on `#` is absent exactly when the string has no `#`; otherwise it is the text between the first `#` and the next `#` or the end |
| `MatchAnalytics.HashLabel` | src/components/MatchAnalytics.tsx:53 | the chart label `anon_id.split('#')[1]` is absent exactly when the id has no `#`; otherwise it is the id's text between its first `#` and the next `#` or the end |
| `MatchAnalytics.ScoreSeries` | src/components/MatchAnalytics.tsx:52-56 | the indexed map from `offset` on gives point i the label and score of match i and rank `offset + i + 1` |
| `MatchAnalytics.MatchScoreData` | src/components/MatchAnalytics.tsx:52-56 | one point per match, in list order; point i has match i's score, rank i + 1 and match i's `#` label |
| `MatchAnalytics.VariationOf` | src/components/MatchAnalytics.tsx:60-65 | a bar group's minimum and maximum bound every score of its criterion and are each some match's score; its average is the rounded mean and lies between them |
| `MatchAnalytics.CriteriaVariationData` | src/components/MatchAnalytics.tsx:59-90 | exactly five bar groups in chart order, each describing its criterion as above, each with the same average as the radar point of that criterion |
| `MatchAnalytics.SingleMatchVariation` | src/components/MatchAnalytics.tsx:59-90 | for a one-match list, minimum, maximum and average of every criterion all equal that match's score |
| `MatchAnalytics.AveragesInRange` | src/components/MatchAnalytics.tsx:23-49 | when all scores lie in [0, 100], every radar value lies between 0 and its `fullMark` |
| `MatchAnalytics.AvgCriteriaPermutation` | src/components/MatchAnalytics.tsx:23-49 | the radar data are the same for every permutation of the matches |
| `MatchCard.ScoreTier` | src/components/MatchCard.tsx:43-47 | a score is in the success tier iff it is at least 80, the accent tier iff it is in [60, 80), the muted tier iff it is below 60 |
| `MatchCard.GetScoreColor` | src/components/MatchCard.tsx:43-47 | `getScoreColor` gives the text class of the score's tier |
| `MatchCard.BarColor` | src/components/MatchCard.tsx:108 | the inline bar expression gives the background class of the same tier as `getScoreColor` |
| `MatchCard.ScoreTierMonotone` | src/components/MatchCard.tsx:43-47 | a higher score never falls into a lower tier |
| `MatchCard.BarMatchesText` | src/components/MatchCard.tsx:108 | the bar and the text of a score name the same colour |
| `MatchCard.BadgeTable` | src/components/MatchCard.tsx:50-54 | the badge table has entries for ranks 1, 2 and 3 only, and none of its texts starts with `#` |
| `MatchCard.RankText` | src/components/MatchCard.tsx:55 | the fallback text is `#`, the rank's decimal text, then ` Match`, and the number parses back to the rank |
| `MatchCard.GetRankBadge` | src/components/MatchCard.tsx:49-56 | ranks 1, 2 and 3 get the gold, silver and bronze badges with variants default, secondary and outline; every other rank, 0 and negatives included, gets the outline badge `"#" + <decimal rank> + " Match"`, whose number parses back to the rank |
| `MatchCard.RankBadgeTextInjective` | src/components/MatchCard.tsx:49-56 | different ranks get different badge texts |
| `MatchCard.CriterionTablesInjective` | src/components/MatchCard.tsx:27-41 | the `criteriaIcons` and `criteriaLabels` tables give distinct criteria distinct icons and distinct labels |
| `MatchCard.Entries` | src/components/MatchCard.tsx:96 | `Object.entries(match.criteria_scores)` has one entry per criterion, in key order, each pairing the criterion with the match's score for it |
| `MatchCard.Breakdown` | src/components/MatchCard.tsx:96-118 | five rows in key order; each shows its criterion's icon, label and score, with a bar class and a text class of that score's tier |
| `MatchCard.Card` | src/components/MatchCard.tsx:75-118 | a card shows the badge of its rank, its match's overall score in the text class of that score's tier, and its match's criteria breakdown, one row per criterion with that criterion's score |
| `MatchCard.StartConversation` | src/components/MatchCard.tsx:125 | the action button calls the message handler with the match's pass key, unchanged |
| `MatchMeter.ToastDescription` | src/pages/MatchMeter.tsx:84 | the description is the fixed prefix, then the pass key unchanged, then `...` |
| `MatchMeter.HandleMessage` | src/pages/MatchMeter.tsx:81-87 | the toast has title "Opening Chat Room", duration 3000 and the description for the pass key |
| `MatchMeter.PasskeyRoundTrip` | src/pages/MatchMeter.tsx:84 | the pass key can be read back out of its description |
| `MatchMeter.ToastDescriptionInjective` | src/pages/MatchMeter.tsx:84 | different pass keys give different descriptions |
| `MatchMeter.Scores` | src/pages/MatchMeter.tsx:92 | the list of overall scores has one entry per match, in order |
| `MatchMeter.AverageMatch` | src/pages/MatchMeter.tsx:92 | `averageMatch` is round-half-up of the sum of the overall scores over their number, and lies between the lowest and the highest score |
| `MatchMeter.AverageMatchPermutation` | src/pages/MatchMeter.tsx:92 | `averageMatch` is the same for every permutation of the matches |
| `MatchMeter.BestMatch` | src/pages/MatchMeter.tsx:137 | "Best Match" is the first match's score whatever the others are, and is absent for an empty list |
| `MatchMeter.BestMatchOfSorted` | src/pages/MatchMeter.tsx:137 | on a list sorted by descending score, "Best Match" is the maximum score and is at least `averageMatch` |
| `MatchMeter.BestMatchIsPositional` | src/pages/MatchMeter.tsx:137 | on the unsorted list [70, 90], "Best Match" shows 70 although the maximum is 90 |
| `MatchMeter.CardsFrom` | src/pages/MatchMeter.tsx:182-189 | the indexed map from `offset` on gives card i match i and rank `offset + i + 1` |
| `MatchMeter.MatchCards` | src/pages/MatchMeter.tsx:182-189 | exactly one card per match; card i holds match i and rank i + 1 |
| `MatchMeter.TotalMatches` | src/pages/MatchMeter.tsx:121 | "Total Matches" equals the number of matches, which is also the number of cards and of chart points |
| `MatchMeter.CardsAgreeWithChart` | src/pages/MatchMeter.tsx:182-189 | card i and chart point i carry the same rank and the same score |
| `MatchMeter.CardBadgeAt` | src/pages/MatchMeter.tsx:182-189 | card i shows the badge of rank i + 1 |
| `MatchMeter.CardBadges` | src/pages/MatchMeter.tsx:182-189 | the first card has the Best Match badge, card i for i of 3 or more shows `#<i+1> Match`, and no two cards share a badge text |
| `MatchMeter.CardLabelsMatchCharts` | src/components/MatchCard.tsx:35-41 | the card's criterion labels are the chart category names, in the same order |
| `MatchMeter.StartConversationOnCard` | src/components/MatchCard.tsx:125 | starting a conversation on card i hands exactly match i's pass key to `handleMessage`, whose toast names that pass key |
| `MatchMeter.MockMatchesSummary` | src/pages/MatchMeter.tsx:13-74 | the fixed result set is sorted by descending score, has 5 matches and best score 88 |
| `MatchMeter.MockAverageMatch` | src/pages/MatchMeter.tsx:92 | for the fixed result set the average of 88, 85, 82, 79 and 76 is 82 |
| `MatchMeter.MockCleanliness` | src/pages/MatchMeter.tsx:13-74 | the cleanliness scores 92, 88, 85, 80 and 75 give minimum 75, maximum 92 and average 84 |
| `MatchMeter.MockLabelsAbsent` | src/components/MatchAnalytics.tsx:53 | no id of the fixed result set contains `#`, so every chart label is absent |

## Left out

- Rendering is not modelled: JSX, Tailwind classes (beyond the colour classes the tier functions return), the recharts charts and their tooltip formatter, images and icons components. It is presentation over libraries outside this model.
- The toast call and the `console.log` in `handleMessage` are side effects; only the toast's argument is modelled (`HandleMessage`).
- React state is not modelled: the constant `useState` of the result set, and the Navbar menu toggle.
- Navbar and Footer are not modelled: they are static link tables and layout.
- The unused `currentUser` constant, React `key` props, the hard-coded "Chat Ready" figure 5 and the hero copy compute nothing.
- Floating point is not modelled. `Math.round(sum / n)` is modelled exactly on integers; the model does not capture IEEE-754 rounding of the quotient.
- CriterionAverage, AvgCriteriaData, VariationOf, CriteriaVariationData, AverageMatch: each requires a non-empty list. On an empty list the source produces NaN for the averages and Infinity/-Infinity for `Math.min`/`Math.max`; the model does not represent those values.
- Non-integer scores and ranks are not modelled: scores and ranks are integers, and the model does not cover `getRankBadge` on a fractional rank.
- Entries: lists the rows in the fields' declaration order. `Object.entries` (src/components/MatchCard.tsx:96) follows the order in which the keys were inserted into the object at run time. The two orders coincide for every record the page builds (src/pages/MatchMeter.tsx:17-23).
- MockMatches: a constant cannot carry a contract. Its contents are stated by `MockMatchesSummary`, `MockAverageMatch`, `MockCleanliness` and `MockLabelsAbsent`.
- NatToDecimal: agrees with JavaScript's `String(n)` only up to 2^53. Beyond that not every integer is a JavaScript number, and `String` prints rounded digits. Ranks are small list positions, so the page never reaches that range.
- The card's `Progress` bar and the bar width copy the score unchanged, so no contract is stated for them.
