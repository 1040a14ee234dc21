# Slack communicator bot — a Dafny model of its core

This project models the core of a Go Slack bot in Dafny. The bot answers direct messages and a `/summary` slash command. It does this from three sources: the public channels it belongs to, Slack message search and Jira issues. A generation service writes the replies.

Five modules follow the Go packages:

- `Text` (`text.dfy`) models the parts of the Go standard library the core relies on:
  - `strings.ToLower`, `Contains`, `HasPrefix`, `TrimLeft`, `TrimSpace`, `Split` and `ReplaceAll`;
  - `strconv.Atoi` with 64-bit overflow;
  - `%d` rendering;
  - the RE2 classes `\d` and `\s`.
- `SlackClient` (`slack_client.dfy`) models `internal/services/slack`:
  - how `formatText` turns plain text into section blocks;
  - the in-place reversal that puts a channel's history in chronological order;
  - the cursor-paginated channel listing, capped at 30 IDs;
  - the memoised user and channel names;
  - `SendMessage`'s choice between a message's own JSON blocks and `formatText`.
- `Agent` (`agent.dfy`) models `internal/agent`:
  - the keyword routing of a direct message. A summary keyword wins over a mentions keyword, and matching ignores case.
  - the `(\d+)\s*d` day count of `performSummary`;
  - the `<@U>` → `*<@U>*` highlighting;
  - the conversational prompt layout;
  - the mention listing, capped at five;
  - the activities prompt of `ConsolidateInfo`;
  - the per-user summary that a conversational turn uses once and then deletes.
- `Handlers` (`handlers.dfy`) models `internal/handlers/slash_command_handler.go`:
  - the order of the HTTP checks;
  - the `^(\d+)([dh])` duration syntax;
  - the calls a `/summary` run makes, and their order.
- `TimeUtil` (`time_util.dfy`) models `util.ParseDuration`: the word form and the short form, both anchored at each end.

The Slack Web API, the generation service and the Jira client are not modelled. Each appears as a parameter:

- the successive pages of the channel listing;
- a channel history function;
- a search function;
- a prompt-to-reply function;
- a Jira reply.

Each loop in the Go source is a Dafny method with invariants, and each method is proved equal to a specification function. The lemmas state what those functions promise.

Durations are counted in whole hours. A month or a year is kept symbolic, because its length depends on the calendar at the time of the call.

## Model

| member | source | states |
|---|---|---|
| Text.RunEnd | internal/util/time.go:12 | the end of the run of a character class from a given index: every character in between is in the class and the next one is not; this is how `(\d+)` and `\s*` match |
| Text.RunStart | internal/services/slack/slack.go:67 | the start of the run of a character class that ends at a given index: every character cut is in the class and the one before it is not |
| Text.RunEndIsUnique | internal/util/time.go:12 | a stretch of the class followed by a character outside it is exactly the run |
| Text.RunInClass | internal/util/time.go:12 | the run, cut out as a string, consists of characters of the class |
| Text.ToLower | internal/agent/agent.go:58 | lower-casing keeps the length, leaves no upper-case ASCII letter, keeps every other character, and turns each upper-case letter into the lower-case letter at the same place in the alphabet |
| Text.ToLowerConcat | internal/agent/agent.go:58 | lower-casing distributes over concatenation |
| Text.LowerTwice | internal/agent/agent.go:58 | lower-casing is idempotent |
| Text.ContainsMiddle | internal/agent/agent.go:59 | a string contains every piece it is built from |
| Text.TrimLeft | internal/services/slack/slack.go:76 | the result is a suffix of the input, everything cut is in the cut set, and the result does not start with a character of the cut set |
| Text.TrimRight | internal/services/slack/slack.go:67 | the result is a prefix of the input, everything cut is in the cut set, and the result does not end with a character of the cut set |
| Text.TrimSpaceIsInfix | internal/services/slack/slack.go:67 | `TrimSpace(s)` is a stretch `s[i..j]` with only white space before and after it, and it neither starts nor ends with white space, so exactly the leading and trailing white space is removed |
| Text.Split | internal/services/slack/slack.go:64 | splitting on line breaks gives at least one line |
| Text.SplitLinesHaveNoBreak | internal/services/slack/slack.go:64 | no line of the split contains a line break |
| Text.JoinSplit | internal/services/slack/slack.go:64 | joining the lines with line breaks gives back the input |
| Text.SplitSingleLine | internal/services/slack/slack.go:64 | text without a line break is one line |
| Text.SplitAtBreak | internal/services/slack/slack.go:64 | splitting `a + "\n" + b` gives the lines of `a`, then those of `b` |
| Text.FlatMapAppend | internal/agent/agent.go:80-82 | writing the pieces of the items of `a + b` writes those of `a`, then those of `b` |
| Text.ReplaceAllAbsent | internal/agent/agent.go:257 | replacing a pattern that does not occur leaves the text unchanged |
| Text.ReplaceAllAtFront | internal/agent/agent.go:257 | an occurrence at the front is replaced, and the scan resumes after it |
| Text.ReplaceAllKeepsHead | internal/agent/agent.go:257 | text that does not start with the pattern keeps its first character, and the scan moves on to the next one |
| Text.ReplaceAll | internal/agent/agent.go:257 | specified by ReplaceAllAbsent, ReplaceAllAtFront and ReplaceAllKeepsHead, which between them cover every input (empty text, text starting with the pattern, any other text): leftmost, non-overlapping replacement, text without the pattern unchanged |
| Text.AtoiItoa | internal/util/time.go:32-35 | `strconv.Atoi` reads back the `%d` rendering of every number up to the largest 64-bit `int`, and fails on every larger one |
| Text.Atoi | internal/util/time.go:32-35 | `strconv.Atoi` succeeds only with a value between 0 and the largest 64-bit `int`, and a digit string written as `%d` writes one reads back to a number whose `%d` rendering is that string |
| Text.ItoaOfDecimal | internal/agent/agent.go:175 | rendering the value of a digit string without a leading zero gives back the string, so `%d` writes every number in exactly one way |
| Text.Itoa | internal/agent/agent.go:175 | `%d` of a natural number is a non-empty digit string without a leading zero, except for 0 itself |
| Text.DecimalOfItoa | internal/agent/agent.go:175 | reading back the rendered digits gives the number |
| TimeUtil.Convert | internal/util/time.go:40-53 | specified by WordMatchesLetter, ParseDurationAccepts and the examples: hours and days in whole hours, months and years as calendar spans, and every word unit the same as its letter |
| TimeUtil.WordMatchesLetter | internal/util/time.go:40-53 | each word unit converts exactly as its one-letter form: "hour" as "h", "day" as "d", "month" as "m", "year" as "y" |
| TimeUtil.UnitOfExactly | internal/util/time.go:12-30 | a tail gives unit `u` exactly when it is a word unit `u` with or without a plural `s`, or the short unit `u` on its own |
| TimeUtil.ParseDuration | internal/util/time.go:11-54 | specified by ParseDurationAccepts, ParseDurationOverflow and ParseDurationSound: the well-formed strings parse to their converted number, an overflowing number is an error, and nothing else parses |
| TimeUtil.FormIsScanned | internal/util/time.go:12-23 | in a well-formed string, the digits and the spaces are exactly the maximal runs the scanner takes |
| TimeUtil.ParseDurationAccepts | internal/util/time.go:11-44 | every string of the shape digits, optional white space, unit, optional plural `s` parses when the number fits an `int`; the result is the number converted by its unit (hours, days of 24 hours, months, years) |
| TimeUtil.ParseDurationOverflow | internal/util/time.go:32-35 | a well-formed string whose number does not fit is an error |
| TimeUtil.ParseDurationSound | internal/util/time.go:11-30 | whatever parses has that shape, and its value is its converted number |
| TimeUtil.DaysExample | internal/util/time.go:43-44 | "20 days" is 480 hours |
| TimeUtil.ShortHoursExample | internal/util/time.go:41-42 | "48h" is 48 hours |
| TimeUtil.ShortMonthExample | internal/util/time.go:45-47 | in the short form "1m" is a month, not a minute |
| TimeUtil.LeadingSpaceRejected | internal/util/time.go:12-28 | leading white space is rejected |
| TimeUtil.DoubledPluralRejected | internal/util/time.go:12-28 | only one plural `s` is accepted |
| TimeUtil.TrailingSpaceRejected | internal/util/time.go:22-28 | trailing text after a short unit is rejected |
| TimeUtil.MinutesRejected | internal/util/time.go:12-28 | "minutes" is not a unit |
| SlackClient.FormatLines | internal/services/slack/slack.go:62-94 | specified by FormatTextAtBreak and FormatTextOfLine: the blocks of the lines in order, one per non-blank trimmed line; Client.FormatText is proved equal to it |
| SlackClient.FormatTextAtBreak | internal/services/slack/slack.go:62-94 | text is laid out line by line: the blocks of `a + "\n" + b` are those of `a`, then those of `b` |
| SlackClient.FormatTextOfLine | internal/services/slack/slack.go:66-91 | one line gives no block when it is blank after trimming, and otherwise exactly one block for the trimmed line |
| SlackClient.FormatLineWith | internal/services/slack/slack.go:72-88 | specified by HeadingLine, CodeFenceLine, BulletLine and PlainLine, stated for any bullet literal and so for both the as-written and the intended layout: the four kinds of line, tested in the source's order |
| SlackClient.FormatLine | internal/services/slack/slack.go:72-88 | the layout with the intended bullet U+2022; BulletLineStartsWithBullet states its bullet lines |
| SlackClient.FormatLineAsWritten | internal/services/slack/slack.go:84 | the layout with the literal as written; SourceBulletIsMisencoded shows it differs from the intended one |
| SlackClient.HeadingLine | internal/services/slack/slack.go:75-77 | with any bullet literal, a line starting with `#` loses its leading run of `#` and spaces, wherever that run ends, and is wrapped in `*` |
| SlackClient.CodeFenceLine | internal/services/slack/slack.go:78-80 | with any bullet literal, a line starting with three backticks is kept verbatim |
| SlackClient.BulletLine | internal/services/slack/slack.go:81-84 | a line starting with `-` or `*` loses its leading run of those characters, wherever that run ends, and starts with the bullet literal, whichever literal it is |
| SlackClient.PlainLine | internal/services/slack/slack.go:85-88 | with any bullet literal, any other line is kept unchanged |
| SlackClient.DashBulletExample | internal/services/slack/slack.go:81-84 | the space after the dash stays: "- x" becomes bullet, space, " x" |
| SlackClient.SourceBulletIsMisencoded | internal/services/slack/slack.go:84 | the bullet literal as written is the UTF-8 bytes of U+2022 read as Windows-1252, and a bullet line laid out with it differs from one with U+2022 |
| SlackClient.BulletLineStartsWithBullet | internal/services/slack/slack.go:84 | with the corrected literal, every bullet line starts with U+2022 and a space |
| SlackClient.Reversed | internal/services/slack/slack.go:110-113 | specified by ReversedPermutes, ReversedTwice and ReverseInPlace: the same messages, in the opposite order |
| SlackClient.ReversedPermutes | internal/services/slack/slack.go:110-113 | the reversal keeps exactly the same messages |
| SlackClient.ReversedTwice | internal/services/slack/slack.go:110-113 | reversing twice gives back the original order |
| SlackClient.ReverseInPlace | internal/services/slack/slack.go:111-113 | the two-pointer swap loop leaves the array holding its old contents in reverse order |
| SlackClient.ListingIsBoundedPrefix | internal/services/slack/slack.go:157-193 | a successful listing keeps the IDs in page order, is a prefix of all the IDs the pages carry, and holds at most 30 of them |
| SlackClient.ListingErrorDiscards | internal/services/slack/slack.go:170-173 | an error on any page that is requested fails the whole listing with "failed to get user conversations: " and the API error, discarding the IDs collected before it; the failed page is the last request |
| SlackClient.ListingComplete | internal/services/slack/slack.go:175-192 | with fewer than 30 IDs in all, the listing is every ID of every page, up to the page without a next cursor, and every page is requested once |
| SlackClient.ListingCapped | internal/services/slack/slack.go:175-188 | once the pages requested carry 30 IDs or more, the listing is exactly the first 30 IDs in page order, and no page after the one reaching 30 is requested |
| SlackClient.Listing | internal/services/slack/slack.go:157-193 | specified by ListingIsBoundedPrefix, ListingErrorDiscards, ListingComplete and ListingCapped: an error on a requested page, all IDs when fewer than 30, otherwise the first 30 |
| SlackClient.Requests | internal/services/slack/slack.go:161-189 | the number of requests is at least one and at most the number of replies; ListingErrorDiscards, ListingComplete and ListingCapped give its value |
| SlackClient.CursorsExtend | internal/services/slack/slack.go:160-189 | sending the last page's next cursor keeps the cursors sent following the pages |
| SlackClient.Gather | internal/agent/agent.go:119-131 | specified by GatherChannel: the channels' messages in channel order, each channel oldest first, failing channels skipped; CollectMessages and Handlers.FetchAll are proved equal to it |
| SlackClient.GatherChannel | internal/agent/agent.go:119-131 | a channel whose history fails adds nothing; one that answers adds its messages oldest first, after the channels before it |
| SlackClient.MemoizedKeepsEntries | internal/services/slack/slack.go:118-154 | a name lookup never changes or drops a cached entry, and adds at most the ID asked about |
| SlackClient.MemoizedIsStable | internal/services/slack/slack.go:123-125 | once a name is resolved, asking again returns the same name from the cache, whatever the API would now say |
| SlackClient.Client.constructor | internal/services/slack/slack.go:24-31 | both caches start empty |
| SlackClient.Client.SendMessage | internal/services/slack/slack.go:40-60 | a message that reads as JSON blocks is posted as those blocks; any other message is posted as `formatText` lays it out |
| SlackClient.Client.FormatText | internal/services/slack/slack.go:62-94 | the loop produces the blocks of the split lines in order, skipping blank ones |
| SlackClient.Client.GetConversationHistory | internal/services/slack/slack.go:97-116 | an API error is passed on; otherwise the messages are returned in reverse of the API's newest-first order |
| SlackClient.Client.GetPublicChannels | internal/services/slack/slack.go:157-193 | the loop returns the listing of the pages; the cursors it sends are empty first and then each page's next cursor, and it sends exactly `Requests(pages, [])` of them, stopping at an error, at 30 IDs or at an empty next cursor |
| SlackClient.Client.GetUserName | internal/services/slack/slack.go:119-135 | answers from the cache; otherwise it asks the API once, falls back to the ID on failure and caches a successful answer |
| SlackClient.Client.GetChannelName | internal/services/slack/slack.go:138-154 | the same memoisation over the channel cache |
| Agent.Classify | internal/agent/agent.go:57-64 | specified by ClassifyIgnoresCase, SummaryKeywordWins and MentionKeywordRoutes: the routing ignores case and puts the summary keywords ahead of the mentions keywords |
| Agent.ClassifyIgnoresCase | internal/agent/agent.go:58-64 | the routing of a message does not depend on its case |
| Agent.SummaryKeywordWins | internal/agent/agent.go:59-61 | any message containing "summary" or "summarize", in any case, is routed to the summary, even if it also names a mentions keyword |
| Agent.MentionKeywordRoutes | internal/agent/agent.go:62-64 | a message with "mentions", "tagged" or "missed" and no summary keyword is routed to the mention search |
| Agent.UpperCaseSummaryExample | internal/agent/agent.go:58-61 | "Give me a SUMMARY" is a summary request |
| Agent.PatternIsScanned | internal/agent/agent.go:101 | a match of `(\d+)\s*d` at a position covers exactly the maximal digit run and the maximal white space after it |
| Agent.ScannedIsPattern | internal/agent/agent.go:101 | conversely, a position the scanner accepts is a match of the expression |
| Agent.FindDayMatch | internal/agent/agent.go:101-102 | the match found is the leftmost position at which the expression matches, and none is found when there is no match |
| Agent.LeftmostMatchStartsRun | internal/agent/agent.go:101-102 | the leftmost match starts at the start of a digit run, so the whole number is captured |
| Agent.MatchExtendsLeft | internal/agent/agent.go:101 | a match preceded by a digit also matches one position earlier |
| Agent.NoPatternAtNonDigit | internal/agent/agent.go:101 | no match of `(\d+)\s*d` starts at a character that is not a digit |
| Agent.FirstMatchAt | internal/agent/agent.go:101-102 | a match with no match before it is the one found |
| Agent.FirstMatchAfterNoDigits | internal/agent/agent.go:101-102 | a match with no digit before it is the one found |
| Agent.SummaryHours | internal/agent/agent.go:98-108 | specified by SummaryHoursOfMatch and NoMatchDefault: the count of the first `(\d+)\s*d` match in days, otherwise 24 hours |
| Agent.SummaryHoursOfMatch | internal/agent/agent.go:98-108 | when the pattern first matches at a position, whatever digits come before it, the window is that count times 24 hours, or 24 hours when the count does not fit an `int` |
| Agent.LaterMatchExample | internal/agent/agent.go:101-108 | "2 x 3d" gives 72 hours: a number not followed by `d` is passed over |
| Agent.ThreeDaysExample | internal/agent/agent.go:101-107 | "in 3 days" looks back 72 hours |
| Agent.UpperCaseDayIgnored | internal/agent/agent.go:101 | the expression is case-sensitive: "3 D" keeps the 24-hour default |
| Agent.NoDigitsDefault | internal/agent/agent.go:98-103 | a message without digits keeps the 24-hour default |
| Agent.NoMatchDefault | internal/agent/agent.go:98-103 | a message in which `(\d+)\s*d` matches nowhere keeps the 24-hour default, whatever digits it holds |
| Agent.DigitsWithoutDayExample | internal/agent/agent.go:98-103 | "page 2 of 3" keeps the 24-hour default |
| Agent.Highlight | internal/agent/agent.go:254-258 | specified by HighlightAtMention, HighlightKeepsHead and HighlightWithoutMention, which between them cover every input: every mention made bold from left to right, every other character kept |
| Agent.HighlightAtMention | internal/agent/agent.go:257 | a mention at the front becomes `*<@U>*`, and the rest is highlighted after it |
| Agent.HighlightKeepsHead | internal/agent/agent.go:257 | text that does not start with a mention keeps its first character, and the rest is highlighted after it |
| Agent.HighlightWithoutMention | internal/agent/agent.go:254-258 | text that does not mention the user is unchanged |
| Agent.HighlightRoundTrip | internal/agent/agent.go:254-258 | for text without `*`, removing the bold markers from the highlighted text gives back the original |
| Agent.HighlightTwiceDoubleBolds | internal/agent/agent.go:254-258 | highlighting is not idempotent: a second pass bolds the tag again |
| Agent.HighlightAllWithoutMention | internal/agent/agent.go:127-129 | messages that do not mention the user are passed on unchanged |
| Agent.HighlightAllAppend | internal/agent/agent.go:127-130 | highlighting distributes over concatenation |
| Agent.LatestIsLastHistoryLine | internal/agent/agent.go:79-85 | `ProcessDM`'s prompt is `continueConversation`'s with the new message added as a last `User: ` history line |
| Agent.ContextSplicedAfterPreamble | internal/agent/agent.go:67-77 | a stored summary is inserted between the preamble and the history, between its start and end markers, and the rest of the prompt is unchanged |
| Agent.PromptEndsWithLatest | internal/agent/agent.go:83-85 | the prompt ends with the user's new line, the end marker and the assistant cue |
| Agent.WriteHistory | internal/agent/agent.go:80-82 | the loop writes each history message followed by a line break, in order |
| Agent.ConversationPrompt | internal/agent/agent.go:54-87 | specified by ContextSplicedAfterPreamble, PromptEndsWithLatest and LatestIsLastHistoryLine: the preamble, the stored summary between its markers, the history, the user's line, the end marker and the cue; the layout of continueConversation at agent.go:187-209 is the same without the user's line |
| Agent.BuildConversationPrompt | internal/agent/agent.go:54-87 | the builder produces the conversation prompt: preamble, optional summary context, history, optional user line, end marker, cue |
| Agent.WriteItems | internal/agent/agent.go:140-142 | the loop writes each item as a `- ` list line, in order |
| Agent.SummaryAnswer | internal/agent/agent.go:97-150 | specified by SummaryOutcomes and SummaryMessagesByChannel: the apology, the no-messages reply, or the generated summary of the collected messages |
| Agent.SummaryOutcomes | internal/agent/agent.go:113-149 | a failed listing gives the channels apology with no generation; the generation service is called exactly when some message was collected, and otherwise the no-messages reply is given |
| Agent.SummaryMessagesByChannel | internal/agent/agent.go:119-131 | the summary prompt lists each channel's highlighted messages oldest first, after the channels before it, and skips a channel whose history fails |
| Agent.MentionsReply | internal/agent/agent.go:153-184 | specified by MentionsBeyondLimit, MentionsDependOnFirstFive and TokenTypeCheckedFirst: the error replies in order, then at most five lines and the notice |
| Agent.MentionsBeyondLimit | internal/agent/agent.go:173-177 | with more than five matches the reply is that of the first five, followed by a notice giving the number left out |
| Agent.MentionsDependOnFirstFive | internal/agent/agent.go:173-181 | two searches with the same count and the same first five matches get the same reply |
| Agent.TokenTypeCheckedFirst | internal/agent/agent.go:158-164 | for every user, an error naming the token-type problem gets the token-type reply, even if it also names a missing scope |
| Agent.ConsolidateAnswer | internal/agent/agent.go:222-251 | specified by NoActivitiesExactlyWhenEmpty and ConsolidateSections: the fixed reply exactly when there is nothing, otherwise the generated summary of the sections |
| Agent.NoActivitiesExactlyWhenEmpty | internal/agent/agent.go:240-242 | the fixed no-activities reply, with no generation, comes exactly when there are no messages and no issues |
| Agent.ConsolidateSections | internal/agent/agent.go:223-238 | with no messages the prompt is the header and the Jira section; with no issues, the header and the Slack section |
| Agent.Processor.constructor | internal/agent/agent.go:26-32 | the summary store starts empty |
| Agent.Processor.SetLastSummary | internal/agent/agent.go:35-40 | stores the summary for the user, overwriting any earlier one and leaving other users' summaries unchanged |
| Agent.Processor.TakeSummary | internal/agent/agent.go:68-77 | returns the user's stored summary, if any, and deletes it |
| Agent.Processor.ProcessMessage | internal/agent/agent.go:43-50 | the reply to a mention is the generated answer to the mention prompt, error text included |
| Agent.Processor.ProcessDM | internal/agent/agent.go:53-94 | a summary or mentions request is answered without touching the store; any other message gets the generated answer to the conversation prompt with the stored summary as context, and that summary is deleted |
| Agent.Processor.ContinueConversation | internal/agent/agent.go:187-218 | the same turn without a new user line: it uses the stored summary and deletes it |
| Agent.Processor.PerformSummary | internal/agent/agent.go:97-150 | the loops answer as the summary specification does: listing error, no messages, generation error, or the summary |
| Agent.Processor.FindUserMentions | internal/agent/agent.go:153-184 | the loop answers as the mentions specification does for the search reply for `<@U>` |
| Agent.HighlightEach | internal/agent/agent.go:127-129 | the in-place loop over a channel's messages gives each message highlighted, in its place |
| Agent.CollectMessages | internal/agent/agent.go:119-131 | the channel loop collects the highlighted messages of every channel whose history could be read, in channel order |
| Agent.WriteMentions | internal/agent/agent.go:171-183 | the builder loop writes the header, at most five match lines, and the notice when more matches are left |
| Agent.Processor.ConsolidateInfo | internal/agent/agent.go:222-251 | the builder answers as the activities specification does |
| Agent.SummaryIsUsedOnce | internal/agent/agent.go:67-77 | a summary stored once gives context to the next conversational turn and not to the one after |
| Handlers.ParseCommandDuration | internal/handlers/slash_command_handler.go:118-140 | specified by CommandDurationAccepts, CommandDurationOverflow and CommandDurationSound: digits then `d` or `h` parse to hours, an overflowing count is an error, and nothing else parses |
| Handlers.CommandDurationAccepts | internal/handlers/slash_command_handler.go:118-136 | digits at the very start followed by `d` or `h` parse to days times 24 or to hours, and anything after the unit is ignored |
| Handlers.CommandDurationOverflow | internal/handlers/slash_command_handler.go:126-129 | a count that does not fit an `int` is an error |
| Handlers.CommandDurationSound | internal/handlers/slash_command_handler.go:118-124 | whatever parses starts with digits followed by `d` or `h` |
| Handlers.SevenDaysExample | internal/handlers/slash_command_handler.go:119-134 | "7days" is 168 hours, because the pattern is not anchored at the end |
| Handlers.HoursExample | internal/handlers/slash_command_handler.go:135-136 | "48h" is 48 hours |
| Handlers.SpacedUnitRejected | internal/handlers/slash_command_handler.go:119-124 | no space may come between the count and the unit |
| Handlers.HandleCommand | internal/handlers/slash_command_handler.go:37-68 | specified by HandleCommandDecisions and UnverifiedNeverDispatched: each status as an if-and-only-if of the request |
| Handlers.HandleCommandDecisions | internal/handlers/slash_command_handler.go:37-68 | each status is determined by the request: 500 when the verifier cannot be set up, 400 for an unparsable form or an unknown command, 401 for a bad signature, 200 with a background run exactly for a verified `/summary`; only an unknown command has a body |
| Handlers.UnverifiedNeverDispatched | internal/handlers/slash_command_handler.go:51-54 | a bad signature gives 401 and no run, whatever the command |
| Handlers.CommandWindow | internal/handlers/slash_command_handler.go:71-81 | specified by BlankTextUsesDefault and InvalidTextWarnsFirst: blank text is 24 hours, text that does not parse is 24 hours with the warning |
| Handlers.BlankTextUsesDefault | internal/handlers/slash_command_handler.go:71-75 | blank command text means 24 hours and no warning |
| Handlers.ParsedTextUsesIt | internal/handlers/slash_command_handler.go:71-81 | command text that parses gives its window and no warning |
| Handlers.InvalidTextWarnsFirst | internal/handlers/slash_command_handler.go:75-81 | command text that does not parse posts the warning first; the run then continues exactly as it would for blank text |
| Handlers.WarningPrefix | internal/handlers/slash_command_handler.go:79-85 | an invalid window puts the warning in front of the run it would otherwise make, and changes nothing else |
| Handlers.RunCalls | internal/handlers/slash_command_handler.go:87-114 | specified by OnlyFetches, ChannelFailureStops, JiraFailureNoSummary and SummaryIsPostedLast: list the channels, one history request per channel, then the Jira request, then one post of the error or the summary |
| Handlers.SummaryCommandCalls | internal/handlers/slash_command_handler.go:71-114 | specified by WarningPrefix, InvalidTextWarnsFirst and BlankTextUsesDefault: the warning for unparsable text, then the run over the window |
| Handlers.OnlyFetches | internal/handlers/slash_command_handler.go:96-103 | the run requests one history per listed channel, in listing order, each over the run's window |
| Handlers.ChannelFailureStops | internal/handlers/slash_command_handler.go:87-92 | whatever the window, a failed listing posts the error last, and the run makes no history or Jira request |
| Handlers.JiraFailureNoSummary | internal/handlers/slash_command_handler.go:105-110 | a failed Jira request posts the Jira error last; no summary is posted, only the warning and that error |
| Handlers.SummaryIsPostedLast | internal/handlers/slash_command_handler.go:105-114 | the last call posts the consolidation of the listed channels' messages and the issues, just after the Jira request |
| Handlers.ReadWindow | internal/handlers/slash_command_handler.go:71-81 | the window is read from the trimmed text, with the warning exactly when the text is non-blank and unparsable |
| Handlers.FetchAll | internal/handlers/slash_command_handler.go:95-103 | the loop requests every channel's history and collects the messages of the channels that answer |
| Handlers.SummaryRun | internal/handlers/slash_command_handler.go:87-114 | the calls after the window is settled are those of the run specification |
| Handlers.ProcessSummaryCommand | internal/handlers/slash_command_handler.go:70-115 | the calls are those of the run specification for the window the command text gives: warning, listing, histories, Jira request, then one post |

## Left out

- SlackClient.Client.FormatText, SlackClient.Client.SendMessage, SlackClient.FormatLines, SlackClient.FormatTextAtBreak, SlackClient.FormatTextOfLine and SlackClient.DashBulletExample: lay out bullet lines with the intended bullet U+2022, not the literal slack.go:84 has. The literal as written is modelled by `SlackClient.FormatLineAsWritten`, and `SlackClient.SourceBulletIsMisencoded` shows where the two differ (see "## Findings").
- The Slack Web API, the generation service and the Jira client are outside this model. Their answers are parameters: listing pages, a history function, a search function, a prompt-to-reply function and a Jira reply.
- `AuthTest` and `SearchMessages` in slack.go only forward to the API, so they have no model of their own.
- Parsing JSON message blocks is a parameter of `SendMessage`: its outcome is given as `decoded`.
- Request signature checking and form parsing are parameters of `HandleCommand`. The HTTP writer is modelled as a `Response` value.
- The event handler, `main`, configuration, the multi-service handler, the Jira client and the service wiring are not part of this model.
- Locking the caches and the summary store is not modelled, and neither is the background goroutine of `HandleCommand`. The model treats each call as running alone.
- `time.Now`, `Add` and `AddDate` are not modelled:
  - a history window is a number of hours back from now;
  - a month or year span stays symbolic (`TimeUtil.Months`, `TimeUtil.Years`).
- TimeUtil.ParseDurationAccepts: does not model int64 nanosecond overflow of `time.Duration(value) * 24 * time.Hour`. Durations are unbounded whole hours.
- Handlers.CommandDurationAccepts: does not model overflow of the `time.Duration` product, for the same reason.
- Agent.SummaryHoursOfMatch: does not model overflow of the `time.Duration` product, for the same reason.
- Logging is left out, and so is the confirmation printout of the channel list.
- `strings.ToLower` and `strings.TrimSpace` are modelled on ASCII only. Non-ASCII letters are not case-folded, and Unicode white space other than ASCII is not trimmed.
- SlackClient.Client.GetPublicChannels: requires the sequence of pages to end, meaning the last reply is an error or has no next cursor. The Go loop stops on its own at the page that brings the total to 30 IDs, whatever its cursor says. Only a workspace with fewer than 30 IDs in all that hands out next cursors forever makes it run forever, and the model leaves that case out. A workspace that reaches 30 while still handing out cursors is covered by any final reply after that page, since no later page is requested (`SlackClient.ListingCapped`).
- Some call sites do not type-check as written:
  - agent.go:128 assigns a string to a message slot;
  - slash_command_handler.go:112 calls `ConsolidateInfo` with two arguments where it takes three;
  - main.go:26 passes the wrong arguments to the constructor.

  The model follows the evident meaning. Messages are their text, and the `/summary` run is given its consolidation step as a parameter, `consolidate`.
- Nothing in these files calls `SetLastSummary`, so no path through the model stores a summary automatically. `Agent.SummaryIsUsedOnce` stores one explicitly.
- `SendMessage` and `GetConversationHistory` return errors from the API. The model does not include the API, so it has no such error for `SendMessage`; the history error is the `Err` of the history function.

## Findings

| source | as written | input that shows it | evidently intended | confidence | as-written member | corrected member |
|---|---|---|---|---|---|---|
| internal/services/slack/slack.go:84 | the bullet literal is the three UTF-8 bytes of U+2022 decoded as Windows-1252 ("â€¢"), so bullet lines start with those three characters | the line "- x" is laid out as "â€¢  x" | a bullet U+2022 followed by a space | not executed | SlackClient.SourceBulletIsMisencoded | SlackClient.BulletLineStartsWithBullet |
