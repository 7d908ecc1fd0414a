# daycipe.io content visibility and date-range request, in Dafny

daycipe.io serves a daily fact, joke and recipe. Users vote items up and
down, and an item whose score falls too low is hidden. This project models
two pieces of its server:

- **The content visibility policy** (`server/config/contentRules.js`). A rule
  table gives each content type (`fact`, `joke`, `recipe`) a hide threshold
  of -5. `evaluateContentVisibility(type, content)` answers "shown" exactly
  when `content.score` is not below the threshold. It throws for a type
  without a rule. Module `ContentRules` models this.
- **The `GET /range` handler** (`server/routes/contentRoutes.js`). It checks
  `startDate` and `endDate` with `isValidDate` and compares them. It then
  runs the three date-range queries and answers with the echoed range, the
  three lists and their counts. Module `RangeDates` models `isValidDate` and
  the comparison `new Date(endDate) < new Date(startDate)`. Module
  `ContentRoutes` models the guards, the query fan-in and the response.

Module `Votes` models the vote step as the upvote and downvote integration
tests observe it: a vote moves an item's score by one, and `isShown` is
recomputed from the new score by the policy. The vote queries themselves are
not part of this model.

Modelling choices:

- A content type is a string, as in the source. A string with no rule is an
  error. Names inherited from `Object.prototype` (`toString`, `constructor`,
  `__proto__`, ...) pass the "unknown type" guard, because the lookup finds
  the inherited member. Calling their missing `shouldHide` then throws a
  TypeError. The model keeps these two errors apart.
- `isValidDate` is the regular expression `^\d{4}-\d{2}-\d{2}$` followed by
  the Date parse. The parse is modelled as accepting month 1 to 12 and day 1
  to 31. It does not check the real length of the month.
- Two valid dates are compared by the day they denote. A day past the end of
  its month runs on into the next month, as the Date constructor composes
  year, month and day. So `2023-02-30` is valid and falls after `2023-03-01`
  (`RangeDates.OverflowingDayExample`). On real calendar dates this
  comparison is the year-month-day order (`RangeDates.CalendarOrderIsChronological`).
- A query parameter is `None` when absent. An empty string counts as absent,
  because the handler tests parameters for truthiness.
- The three queries are function parameters. The handler's result records
  which queries it issued and with which arguments. `None` as the end
  argument stands for the `null` the handler passes.

## Model

| member | source | states |
|---|---|---|
| ContentRules.EvaluateContentVisibility | server/config/contentRules.js:1-22 | for `fact`, `joke`, `recipe` the result is `Success(score >= -5)`; any other type is a failure naming that type; every type that is neither a rule nor an inherited object member gets the "Unknown content type" error, whose message is "Unknown content type: " followed by the type |
| ContentRules.ShouldHide | server/config/contentRules.js:4-12 | for every rule in the table, an item is hidden exactly when its score is -6 or less |
| ContentRules.IsVisible | server/config/contentRules.js:17-22 | for each of the three kinds the lookup succeeds, and its answer is true exactly when the score is at least -5 |
| ContentRules.RuleTableCoversKinds | server/config/contentRules.js:1-14 | the table has a rule for exactly the three kind names, and each rule's threshold is -5 |
| ContentRules.ShownIffAtLeastThreshold | server/config/contentRules.js:3-12 | for every recognised kind the answer is a boolean, true if and only if the score is at least -5 |
| ContentRules.HideBoundary | server/config/contentRules.js:3-4 | score -5 is shown and score -6 is hidden, for every kind |
| ContentRules.UnknownTypeIsError | server/config/contentRules.js:18-20 | a type without a rule yields an error, never a boolean |
| ContentRules.KindDoesNotMatter | server/config/contentRules.js:2-13 | all kinds share the threshold, so for recognised kinds the answer does not depend on the kind |
| ContentRules.ShownIsMonotonic | server/config/contentRules.js:4 | an item shown at some score is shown at every higher score |
| ContentRules.OnlyScoreIsRead | server/config/contentRules.js:17-22 | two rows with the same score get the same answer, whatever their other columns |
| Votes.Cast | server/test/integration/facts.integration.test.js:125-158 | one vote changes the score by exactly +1 or -1, recomputes `isShown` from the new score, and changes nothing else |
| Votes.ReplayNetScore | server/test/integration/facts.integration.test.js:125-158 | after any run of votes the score is the start score plus the net of the single steps, `isShown` agrees with the policy, and id, date, category, text and kind are unchanged |
| Votes.DownvoteStreak | server/test/integration/facts.integration.test.js:145-158 | from score 0, n downvotes leave score -n; the item stays shown through five downvotes and is hidden from the sixth on |
| Votes.UndoRestores | server/test/integration/facts.integration.test.js:125-143 | a vote followed by the opposite vote gives back exactly the item it started from |
| Votes.VotesObservedByTests | server/test/integration/facts.integration.test.js:125-158 | from 0 an upvote gives 1 and a downvote -1, both shown; from -5 a downvote gives -6 and hides the item |
| RangeDates.ParseDate | server/routes/contentRoutes.js:55-57 | a string parses exactly when it has the shape `\d{4}-\d{2}-\d{2}` and nothing else |
| RangeDates.FormatDate | server/routes/contentRoutes.js:55-57 | the written form of a date of at most four, two and two digits always has the accepted shape |
| RangeDates.ParseFormatRoundTrip | server/routes/contentRoutes.js:55-57 | parsing the written form of a date gives back that date |
| RangeDates.FormatParseRoundTrip | server/routes/contentRoutes.js:55-57 | writing the date read from a string of the shape gives back the string, so the parse reads every character and is one-to-one |
| RangeDates.MatchesDatePattern | server/routes/contentRoutes.js:56-57 | the pattern holds if and only if the string has ten characters, a dash at positions 4 and 7 and an ASCII digit at every other position |
| RangeDates.IsValidDate | server/routes/contentRoutes.js:55-61 | `isValidDate` holds if and only if the string has the shape, its month is 1 to 12 and its day is 1 to 31 |
| RangeDates.Earlier | server/routes/contentRoutes.js:21 | for two dates that exist in the calendar, one is earlier than the other if and only if it comes first by year, then month, then day; a date is never earlier than the same string |
| RangeDates.PatternExamples | server/test/unit/content.test.js:132-158 | "15-10-2023", "invalid" and the empty string are rejected; "2023-10-15" is accepted and read as 2023, 10, 15 |
| RangeDates.CalendarOrderIsChronological | server/routes/contentRoutes.js:21 | on dates that exist in the calendar, one date is earlier than another if and only if it comes first by year, then month, then day |
| RangeDates.NotEarlierThanItself | server/routes/contentRoutes.js:21 | a valid date is never earlier than itself, so equal dates pass the order check |
| RangeDates.OverflowingDayExample | server/routes/contentRoutes.js:21 | "2023-02-30" passes `isValidDate` and denotes a later day than "2023-03-01" |
| ContentRoutes.EmptyIsAbsent | server/routes/contentRoutes.js:13-34 | an empty startDate or endDate gives exactly the response and the issued queries that an absent one gives, whatever the other parameter and the queries are |
| ContentRoutes.ValidateRange | server/routes/contentRoutes.js:13-23 | the guards pass if and only if startDate is given and valid and, when endDate is given, it is valid and not earlier; on success the start is passed on and the end is passed on exactly when given; a failure carries one of the three guard messages |
| ContentRoutes.Gather | server/routes/contentRoutes.js:25-29 | the three lists come back if and only if all three queries succeed; otherwise the failure is the message of a query that was rejected |
| ContentRoutes.BuildBody | server/routes/contentRoutes.js:31-46 | the body holds the three lists unchanged, each count is its list's length, the total is their sum (the length of all items together), and the echoed end date falls back to the start date |
| ContentRoutes.HandleRange | server/routes/contentRoutes.js:9-53 | a failed guard answers 400 with its message and issues no query; otherwise all three queries are issued with the same arguments, the answer is 200 exactly when all three succeed (with the body built from their lists), and 500 otherwise |
| ContentRoutes.StartDateGuard | server/routes/contentRoutes.js:13-15 | a missing, empty or malformed startDate gives "Valid startDate parameter is required (YYYY-MM-DD)" whatever endDate is, and no query is issued |
| ContentRoutes.EndDateGuard | server/routes/contentRoutes.js:17-19 | with a valid startDate, a present but invalid endDate gives "If provided, endDate must be valid (YYYY-MM-DD)" and no query is issued |
| ContentRoutes.OrderGuard | server/routes/contentRoutes.js:21-23 | with both dates valid, the answer is "endDate cannot be earlier than startDate" if and only if endDate is earlier; equal dates go on to the queries |
| ContentRoutes.OrderGuardExample | server/test/unit/content.test.js:162-169 | startDate 2023-10-15 with endDate 2023-10-10 is refused with the order message and no query |
| ContentRoutes.OmittedEndDate | server/routes/contentRoutes.js:25-35 | without endDate every query gets a null end and the echoed range ends on the start date; an empty endDate behaves exactly like an omitted one |
| ContentRoutes.CountsMatchContent | server/routes/contentRoutes.js:41-46 | in every successful response each count is the length of its list and the total is their sum |
| ContentRoutes.QueryFailureIsTotal | server/routes/contentRoutes.js:50-52 | if any query is rejected the answer is a 500 whose message is "Failed to get content: " followed by a rejected query's message, with no content, after all three queries were issued |

## Left out

- The SQL behind `getFactsByDateRange`, `getJokesByDateRange`,
  `getRecipesByDateRange` and the upvote and downvote queries is not part of
  this model. The queries are abstract inputs, and module `Votes` follows
  only the steps the integration tests observe.
- ContentRoutes.Gather: when several queries fail, which rejection
  `Promise.all` reports depends on timing. The contract says only that it is
  the message of one rejected query; the function takes the first in
  argument order.
- Concurrency of the three queries is not modelled; their results are given
  together.
- RangeDates.DateParses: the Date parse is modelled as the ISO date-only
  form, month 1 to 12 and day 1 to 31, not as a full model of the JavaScript
  Date parser. When the ISO form refuses a string, the engine's fallback
  parser may still read its numbers as month, day and year, so for the years
  0001 to 0031 some strings the model rejects are valid dates there (for
  example "0012-13-01" and "0005-10-00").
- A query parameter given twice (which arrives as an array) is not modelled;
  parameters are strings or absent.
- The exact TypeError message for inherited object member names follows the
  usual engine wording and is not part of any test.
- The other HTTP routers, server start-up, the database connection, the
  content generator scripts, the React components and the tests themselves
  are outside the modelled core.
