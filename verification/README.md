# FitSwift core, modelled in Dafny

FitSwift is an iOS fitness companion. It shows today's activity from HealthKit, step charts over
several time ranges, a workout history, rule-based "AI" insight cards, and a chat assistant
backed by a Gemini model that can ask the app to show charts. This project models the parts
of the app that compute things, as opposed to the parts that draw views or talk to HealthKit
and the network:

- **GeminiService** (`gemini_service.dfy`, with the regular-expression scanners in `patterns.dfy`):
  - turning structured function calls, or `tool_code {…}` / `json {…}` blocks written into the
    reply text, into tool commands;
  - cleaning those blocks out of the visible text;
  - building the prompt.
- **Workout** (`workout.dfy`) and **PreviousWorkout** (`previous_workout.dfy`):
  - workout equality and what the hash covers;
  - reading the leading number back from "30 mins" / "300 kcal".
- **WorkoutListViewModel** (`workout_list.dfy`):
  - loading workouts;
  - type and search filtering;
  - the two mock generators.
- **ChatViewModel** (`chat.dfy`): keyword routing and the step, calorie, workout, tip and help replies.
- **WorkoutAIInsightViewModel** (`workout_insight.dfy`):
  - the mock heart-rate statistics, distance and pace;
  - the five-entry mock history, sorted by date text;
  - the improvement message and the per-type insight cards.
- **ChartDetailViewModel** (`chart_detail.dfy`):
  - the series of each chart range;
  - the statistics strings;
  - the half-versus-half trend, the pattern and goal sentences, and the insight cards.
- **AIInsightViewModel** (`ai_insight.dfy`):
  - the metric updates from the fetch results;
  - the mock weekly trends;
  - the five insight generators.
- **ChartsViewModel** (`charts.dfy`): the mock daily series, and the year-to-date and one-year
  lists with their totals and averages.
- **HealthManager** (`health_manager.dfy`):
  - the weekly minutes per workout type and the activity cards built from them;
  - today's stand-hour count;
  - the sorting of twelve monthly step totals into the year-to-date and one-year lists.
- **InsightsView** (`insights_view.dfy`): the insight list's type filter.

Shared helpers:
- `wrappers.dfy`: Option and fetch results.
- `text.dfy`: ASCII lower-casing, `contains`, trimming, `Int` printing and parsing, en_US digit grouping.
- `numbers.dfy`: truncating division, sums, minimum and maximum.
- `seqs.dfy`: order-preserving filter, count, reverse.
- `palette.dfy`: colours.
- `step_models.dfy`: chart points.

How the model represents the source:
- View models whose published fields change become classes. Their methods state the whole new state.
- Pure computations become functions, with lemmas relating them.
- Dates are whole-number day or month offsets from now.
- Every random draw is a nondeterministic choice within the source's range, or a parameter when
  a result depends on its exact value.
- The HealthKit query results and the Gemini reply come in as parameters.

Where the code and its documentation disagree, the model follows the code. Notably:
- Cleaning a reply is not idempotent: `tool_tool_code {x}code {y}` cleans to
  `tool_code {y}` (`GeminiService.CleanedNotIdempotent`).
- A block whose body nests braces ends at the first `}`, so the outer brace stays in the
  visible text (`GeminiService.NestedBraceLeftOver`).
- Structured function calls take precedence over text blocks only when at least one of them
  converts to a command (`GeminiService.StructuredFirst`, `GeminiService.FailedCallsFallBack`).
- `Workout ==` compares ids when both are present, otherwise title, image, duration, date and
  calories, while its hash covers every field but the colour. Two workouts with the same id
  can therefore be equal and hash apart (`WorkoutModel.SameButHashedApart`).
- The five-entry history is sorted by date *text*, so the entry compared as "current" need not be
  the current session (`WorkoutInsights.CurrentNotFirstAcrossDigitCounts`).
- A stable trend reads "decreased" on the quarterly card (`ChartDetail.QuarterlyStableReadsDecreased`).
- The mock weekly step series always produces the positive-trend card
  (`AIInsights.MockStepsAlwaysPositive`), and the mock exercise series always produces the
  excellent-consistency card (`AIInsights.MockExerciseAlwaysExcellent`).

## Model

| member | source | states |
|---|---|---|
| GeminiService.ToolTypeFromRaw | FitSwift/Services/GeminiService.swift:22-26 | the raw-value initializer accepts exactly the three tool names and inverts the raw value |
| GeminiService.ChartTypeFromRaw | FitSwift/Services/GeminiService.swift:28-32 | accepts exactly "bar", "line", "pie", inverting the raw value |
| GeminiService.TimeRangeFromRaw | FitSwift/Services/GeminiService.swift:34-39 | accepts exactly "day", "week", "month", "year", inverting the raw value |
| GeminiService.MetricFromRaw | FitSwift/Services/GeminiService.swift:41-47 | accepts exactly the five metric names, inverting the raw value |
| GeminiService.ChartResponse | FitSwift/Services/GeminiService.swift:174-181 | a missing chart type, range or metric defaults to bar/week/steps; a present one is decoded, and one naming no case gives no value instead of the default; title and description are copied |
| GeminiService.HistoryResponse | FitSwift/Services/GeminiService.swift:197-204 | the history command carries only a time range, which defaults to week when missing and is empty when unrecognised |
| GeminiService.DecodeStringMap | FitSwift/Services/GeminiService.swift:172 | decoding as a string dictionary succeeds exactly when every argument is a string, and then keeps every key with its string |
| GeminiService.ProcessToolCall | FitSwift/Services/GeminiService.swift:163-213 | a converted call is named by its tool type; unknown names give nothing; showActivity always converts; chart and history calls convert exactly when all arguments are strings, and then their fields come from those arguments |
| GeminiService.ConvertedFromCalls | FitSwift/Services/GeminiService.swift:135-144 | every collected command comes from some call, and no call that converts is dropped |
| GeminiService.CleanBody | FitSwift/Services/GeminiService.swift:245-247 | a cleaned block body holds no newline and no backslash and is no longer than before |
| GeminiService.CleanBodyPlain | FitSwift/Services/GeminiService.swift:245-247 | a body without newlines and backslashes is left unchanged |
| GeminiService.ParseToolResponseFromText | FitSwift/Services/GeminiService.swift:260-318 | a parsed command's type is the block's first "name" value; for each tool name the command's fields are the first matching values of their keys, with the same defaults as structured calls |
| GeminiService.ActivityBodyParses | FitSwift/Services/GeminiService.swift:260-301 | a body starting with `"name": "showActivity"` parses to the activity command whatever follows |
| GeminiService.ParseNeedsToolName | FitSwift/Services/GeminiService.swift:265-268 | a body without a name, or whose name is not a tool, parses to nothing |
| GeminiService.Parsed | FitSwift/Services/GeminiService.swift:240-254 | parsing a list of block bodies yields at most one command per block; ParsedFromBlocks and ParsedAppend tie each command to its block and keep block order |
| GeminiService.ParsedFromBlocks | FitSwift/Services/GeminiService.swift:240-254 | every collected command is the parse of some block body, and every body that parses contributes its command |
| GeminiService.ParsedAppend | FitSwift/Services/GeminiService.swift:240-254 | commands come out in block order: the commands of two runs of blocks are those of the first run, then those of the second |
| GeminiService.TextToolResponses | FitSwift/Services/GeminiService.swift:226-254 | at most one command per block of the prefix in the text; the commands are the parsed block bodies in order of appearance (ParsedFromBlocks, ParsedAppend) |
| GeminiService.ExtractedFromText | FitSwift/Services/GeminiService.swift:234-256 | nil exactly when no block parses; otherwise the non-empty list of parsed commands |
| GeminiService.ExtractedNeedsPrefix | FitSwift/Services/GeminiService.swift:226-236 | a text that never contains the prefix yields nil |
| GeminiService.ExtractToolResponsesFromText | FitSwift/Services/GeminiService.swift:224-257 | the matching loop computes exactly the extracted commands |
| GeminiService.Cleaned | FitSwift/Services/GeminiService.swift:336-356 | the visible text neither starts nor ends with whitespace |
| GeminiService.CleanedWithoutBlocks | FitSwift/Services/GeminiService.swift:336-356 | text holding neither kind of block is only trimmed |
| GeminiService.CleanResponseText | FitSwift/Services/GeminiService.swift:336-356 | computes the cleaned text; text mentioning neither `tool_code` nor `json` is only trimmed |
| GeminiService.GenerateResponse | FitSwift/Services/GeminiService.swift:118-161 | returns the cleaned text and the commands chosen by the precedence of structured calls, then `tool_code` blocks, then `json` blocks |
| GeminiService.StructuredFirst | FitSwift/Services/GeminiService.swift:135-148 | when some structured call converts, its commands are the answer whatever the text says |
| GeminiService.FailedCallsFallBack | FitSwift/Services/GeminiService.swift:148-155 | calls that all fail to convert count as no calls once the text names a block kind |
| GeminiService.ToolCodeShadowsJson | FitSwift/Services/GeminiService.swift:150-154 | a text mentioning `tool_code` is never scanned for `json` blocks |
| GeminiService.EmptyListOnlyFromFailedCalls | FitSwift/Services/GeminiService.swift:135-155 | an empty command list, rather than nil, arises exactly when calls exist, none converts and the text names neither block kind |
| GeminiService.CleanedNotIdempotent | FitSwift/Services/GeminiService.swift:340-355 | removing a block can join the text around it into a new block, so cleaning twice differs from cleaning once |
| GeminiService.JoinedBlockRemoved | FitSwift/Services/GeminiService.swift:340-345 | in `tool_tool_code {x}code {y}` the `tool_code` pass leaves `tool_code {y}` |
| GeminiService.JoinedBlocks | FitSwift/Services/GeminiService.swift:340-345 | that text holds exactly one `tool_code` match, at position 5 |
| GeminiService.JoinedBlockShape | FitSwift/Services/GeminiService.swift:340 | the span at position 5 of that text is a `tool_code` block |
| GeminiService.JoinedTailFree | FitSwift/Services/GeminiService.swift:340 | no match starts after that block |
| GeminiService.SingleBlockRemoved | FitSwift/Services/GeminiService.swift:340-355 | `tool_code {y}` cleans to the empty string |
| GeminiService.NoJsonKept | FitSwift/Services/GeminiService.swift:348-353 | a text without the letter `j` passes the `json` pass unchanged |
| GeminiService.NestedBraceLeftOver | FitSwift/Services/GeminiService.swift:340-355 | a block body with nested braces ends at the first `}`, so `ok tool_code {x{}}` shows as `ok }` |
| GeminiService.NestedBlocks | FitSwift/Services/GeminiService.swift:340 | the only `tool_code` match of that text ends at the inner closing brace |
| GeminiService.BuildPrompt | FitSwift/Services/GeminiService.swift:215-221 | the prompt is the context header and the context, then the history header and the conversation history, then the message header and the user's message |
| Patterns.SkipSpaces | FitSwift/Services/GeminiService.swift:226 | `\s*` stops at the first non-space at or after its start |
| Patterns.IndexFrom | FitSwift/Services/GeminiService.swift:226 | finds the first occurrence of a character at or after a position, or reports that none exists |
| Patterns.BlockAt | FitSwift/Services/GeminiService.swift:226 | a block match at a position is the prefix, spaces, `{`, a non-empty body without `}`, and `}` |
| Patterns.BlockAtComplete | FitSwift/Services/GeminiService.swift:226 | every block match is the one found at its start |
| Patterns.Blocks | FitSwift/Services/GeminiService.swift:232 | the matches are consecutive, non-overlapping block matches, left to right |
| Patterns.BlocksLeftmost | FitSwift/Services/GeminiService.swift:232 | no match starts before the first one found |
| Patterns.BlocksNeedPrefix | FitSwift/Services/GeminiService.swift:232 | a text not containing the prefix has no matches |
| Patterns.Removed | FitSwift/Services/GeminiService.swift:344 | replacing the matches by nothing never lengthens the text |
| Patterns.RemovedIsGaps | FitSwift/Services/GeminiService.swift:344 | the removal keeps exactly the text outside the matches, in order |
| Patterns.RemovedUnchanged | FitSwift/Services/GeminiService.swift:344 | the text is unchanged exactly when nothing matches |
| Patterns.ExtractStringValue | FitSwift/Services/GeminiService.swift:321-333 | the value of a key is the captured value of its leftmost `"key" : "value"` match |
| Patterns.ExtractLeadingPair | FitSwift/Services/GeminiService.swift:321-333 | a text that starts with `"key": "v"` yields `v` |
| WorkoutModel.SameByIds | FitSwift/Models/Workout.swift:22-25 | when both ids are present, equality is equality of ids |
| WorkoutModel.SameIgnoresColor | FitSwift/Models/Workout.swift:26-30 | the colour never affects equality |
| WorkoutModel.SameReflexive | FitSwift/Models/Workout.swift:22-31 | every workout equals itself |
| WorkoutModel.SameSymmetric | FitSwift/Models/Workout.swift:22-31 | equality is symmetric |
| WorkoutModel.SameNotTransitive | FitSwift/Models/Workout.swift:22-31 | equality is not transitive: ids 1 and 2 both equal an id-less copy |
| WorkoutModel.Hashed | FitSwift/Models/Workout.swift:13-20 | the hash covers every field except the colour |
| WorkoutModel.HashedDeterminesSame | FitSwift/Models/Workout.swift:13-31 | equal hash inputs imply equal workouts |
| WorkoutModel.SameButHashedApart | FitSwift/Models/Workout.swift:13-31 | two workouts with the same id but different titles are equal yet hash differently |
| PreviousWorkouts.LeadingNumber | FitSwift/Home/Models/PreviousWorkout.swift:20-26 | the number before the first space when it is all digits, and 0 when it does not parse |
| PreviousWorkouts.LeadingNumberOfText | FitSwift/Home/Models/PreviousWorkout.swift:20-26 | a number written before a space and a unit reads back as that number |
| PreviousWorkouts.MinutesRoundTrip | FitSwift/Home/Models/PreviousWorkout.swift:20-22 | "n mins" reads back as n |
| PreviousWorkouts.KcalRoundTrip | FitSwift/Home/Models/PreviousWorkout.swift:24-26 | "n kcal" reads back as n |
| PreviousWorkouts.FromWorkout | FitSwift/Home/Models/PreviousWorkout.swift:16-27 | keeps the id and date; duration and calories are the leading numbers of their texts |
| PreviousWorkouts.FromWorkoutRoundTrip | FitSwift/Home/Models/PreviousWorkout.swift:16-27 | a workout written as "m mins" / "k kcal" compares with exactly m and k |
| WorkoutList.OtherIsNoSpecificType | FitSwift/Home/ViewModels/WorkoutListViewModel.swift:72-92 | "Other" keeps exactly the workouts that every specific type filter rejects |
| WorkoutList.Filtered | FitSwift/Home/ViewModels/WorkoutListViewModel.swift:67-105 | the visible list is never longer than the full list |
| WorkoutList.FilteredIsOneFilter | FitSwift/Home/ViewModels/WorkoutListViewModel.swift:67-105 | the type step then the search step is one order-preserving filter by their conjunction |
| WorkoutList.FilteredMembers | FitSwift/Home/ViewModels/WorkoutListViewModel.swift:67-105 | a workout is shown exactly when it is in the list and passes both tests |
| WorkoutList.FilteredKeepsOrder | FitSwift/Home/ViewModels/WorkoutListViewModel.swift:67-105 | filtering a concatenation filters each part in place |
| WorkoutList.AllWithoutSearchIsIdentity | FitSwift/Home/ViewModels/WorkoutListViewModel.swift:70-102 | the All filter with an empty search shows every workout |
| WorkoutList.SearchIgnoresCase | FitSwift/Home/ViewModels/WorkoutListViewModel.swift:95-102 | a query and its lower-cased form show the same workouts |
| WorkoutList.FilteredIdempotent | FitSwift/Home/ViewModels/WorkoutListViewModel.swift:67-105 | filtering the shown list again changes nothing |
| WorkoutList.MockNumbersReadBack | FitSwift/Home/ViewModels/WorkoutListViewModel.swift:139-158 | a mock workout reads back as 15 to 120 minutes and 100 to 800 kcal |
| WorkoutList.MockWorkout | FitSwift/Home/ViewModels/WorkoutListViewModel.swift:139-158 | a mock workout has one of the seven kinds, a mock duration and calorie text, and the given id and date |
| WorkoutList.WorkoutListViewModel.constructor | FitSwift/Home/ViewModels/WorkoutListViewModel.swift:12-14 | starts with empty lists and not loading |
| WorkoutList.WorkoutListViewModel.LoadWorkouts | FitSwift/Home/ViewModels/WorkoutListViewModel.swift:18-65 | ends not loading with everything shown; on success the list is a reordering of the fetched workouts plus at most 25 mock ones; on failure it holds thirty mock workouts with ids 0 to 29 |
| WorkoutList.WorkoutListViewModel.LoadFetched | FitSwift/Home/ViewModels/WorkoutListViewModel.swift:30-55 | the success branch: the fetched workouts and the mock additions, reordered and all shown |
| WorkoutList.WorkoutListViewModel.FilterWorkouts | FitSwift/Home/ViewModels/WorkoutListViewModel.swift:67-105 | the visible list becomes the filtered full list; the full list and the loading flag stay unchanged |
| WorkoutList.WorkoutListViewModel.GenerateMockWorkouts | FitSwift/Home/ViewModels/WorkoutListViewModel.swift:109-176 | thirty mock workouts carrying each id 0 to 29 once, in some order |
| WorkoutList.WorkoutListViewModel.AddMockWorkoutsForPreviousMonths | FitSwift/Home/ViewModels/WorkoutListViewModel.swift:178-236 | keeps the existing workouts as a prefix and appends at most 25 mock ones with strictly increasing ids, exactly 25 when every date exists |
| WorkoutList.WorkoutListViewModel.AddMockMonth | FitSwift/Home/ViewModels/WorkoutListViewModel.swift:194-235 | one month's five tries append at most five mock workouts, with increasing ids above the month's base |
| WorkoutList.MockAppended | FitSwift/Home/ViewModels/WorkoutListViewModel.swift:224 | appending the next try's workout keeps the month's id bounds |
| WorkoutList.IncreasingIdsJoin | FitSwift/Home/ViewModels/WorkoutListViewModel.swift:194-224 | each month's ids exceed those of the months before it |
| WorkoutList.SortedMockWorkouts | FitSwift/Home/ViewModels/WorkoutListViewModel.swift:164-175 | reordering the thirty generated workouts keeps their shapes and their ids 0 to 29 |
| Chat.RouteOf | FitSwift/Chat/ViewModel/ChatViewModel.swift:38-59 | routes by the first keyword found in the lower-cased text: step, workout or exercise, calorie, advice or tip, else help |
| Chat.RouteIgnoresCase | FitSwift/Chat/ViewModel/ChatViewModel.swift:38 | routing does not depend on letter case |
| Chat.StepVerdict | FitSwift/Chat/ViewModel/ChatViewModel.swift:78-84 | behind below 5000, doing well from 5000 to below 8000, very active from 8000 |
| Chat.StepReply | FitSwift/Chat/ViewModel/ChatViewModel.swift:73-89 | a failed fetch gives the permission message; otherwise the reply starts with the amount sentence, with the verdict on the parsed count when the amount, without its commas, parses, and no verdict when it does not |
| Chat.StepReplyOfCount | FitSwift/Chat/ViewModel/ChatViewModel.swift:75-85 | a count printed with grouping commas gets the verdict of that count |
| Chat.CalorieVerdict | FitSwift/Chat/ViewModel/ChatViewModel.swift:116-122 | low below 300, good from 300 to below 600, very active from 600, compared before truncation |
| Chat.CalorieReply | FitSwift/Chat/ViewModel/ChatViewModel.swift:112-126 | a failed fetch gives the permission message; otherwise the truncated calories and the verdict |
| Chat.Reply | FitSwift/Chat/ViewModel/ChatViewModel.swift:44-59 | each route gets its own reply: step reply, workout summary, calorie reply, the tip, or help |
| Chat.RandomFitnessTip | FitSwift/Chat/ViewModel/ChatViewModel.swift:134-147 | the tip is one of the eight |
| Chat.ChatViewModel.constructor | FitSwift/Chat/ViewModel/ChatViewModel.swift:15-23 | the transcript starts with the assistant's welcome |
| Chat.ChatViewModel.SendMessage | FitSwift/Chat/ViewModel/ChatViewModel.swift:25-32 | appends the user's message and then exactly one assistant answer to it, keeping the earlier transcript |
| Chat.ChatViewModel.GenerateResponse | FitSwift/Chat/ViewModel/ChatViewModel.swift:34-64 | appends exactly one assistant answer for the message's route |
| WorkoutInsights.RunningInsights | FitSwift/Home/ViewModels/WorkoutAIInsightViewModel.swift:212-242 | achievement, observation, recommendation, led by "Great Pace!" |
| WorkoutInsights.StrengthTrainingInsights | FitSwift/Home/ViewModels/WorkoutAIInsightViewModel.swift:244-274 | three cards in kind order, led by "Consistent Training" |
| WorkoutInsights.SwimmingInsights | FitSwift/Home/ViewModels/WorkoutAIInsightViewModel.swift:276-306 | three cards in kind order, led by "Efficient Swimming" |
| WorkoutInsights.GenericInsights | FitSwift/Home/ViewModels/WorkoutAIInsightViewModel.swift:308-338 | three cards in kind order, led by "Workout Completed!" |
| WorkoutInsights.TypeInsights | FitSwift/Home/ViewModels/WorkoutAIInsightViewModel.swift:47-56 | the lead card is the running, strength or swimming one exactly for those lower-cased titles, the generic one otherwise |
| WorkoutInsights.ImprovementOf | FitSwift/Home/ViewModels/WorkoutAIInsightViewModel.swift:192-207 | the message is chosen by the signs of the duration and calorie differences and shows those differences, the shorter case showing minutes as a positive number |
| WorkoutInsights.ComparisonInsights | FitSwift/Home/ViewModels/WorkoutAIInsightViewModel.swift:340-371 | nothing below two sessions; otherwise one card, "Progress Detected!" exactly when the first session improved on the second |
| WorkoutInsights.ProgressCardShowsImprovement | FitSwift/Home/ViewModels/WorkoutAIInsightViewModel.swift:182-207 | after the improvement text is generated, a progress card shows that text |
| WorkoutInsights.HeartRateStatsOrdered | FitSwift/Home/ViewModels/WorkoutAIInsightViewModel.swift:87-96 | the shown average lies between the minimum and the shown maximum, which is the maximum |
| WorkoutInsights.BpmRoundTrip | FitSwift/Home/ViewModels/WorkoutAIInsightViewModel.swift:90-94 | "n BPM" reads back as n |
| WorkoutInsights.WorkoutImage | FitSwift/Home/ViewModels/WorkoutAIInsightViewModel.swift:376-389 | "figure.walk" exactly for walking and unknown types |
| WorkoutInsights.WorkoutColor | FitSwift/Home/ViewModels/WorkoutAIInsightViewModel.swift:391-404 | gray exactly for unknown types |
| WorkoutInsights.LookupsIgnoreCase | FitSwift/Home/ViewModels/WorkoutAIInsightViewModel.swift:377-392 | both lookups ignore letter case |
| WorkoutInsights.InsertByDate | FitSwift/Home/ViewModels/WorkoutAIInsightViewModel.swift:176 | insertion adds exactly the one entry |
| WorkoutInsights.InsertByDateSorted | FitSwift/Home/ViewModels/WorkoutAIInsightViewModel.swift:176 | inserting into a list sorted by descending date text keeps it sorted |
| WorkoutInsights.SortByDate | FitSwift/Home/ViewModels/WorkoutAIInsightViewModel.swift:176 | a reordering sorted by descending date text always exists |
| WorkoutInsights.SortedFirstNotBelow | FitSwift/Home/ViewModels/WorkoutAIInsightViewModel.swift:176 | a date text below another entry's is never sorted first |
| WorkoutInsights.DayTwelveBelowDayNine | FitSwift/Home/ViewModels/WorkoutAIInsightViewModel.swift:151-152 | "May-12" sorts below "May-9" as text |
| WorkoutInsights.CurrentNotFirstAcrossDigitCounts | FitSwift/Home/ViewModels/WorkoutAIInsightViewModel.swift:176-190 | when today prints as "May-12" and three days ago as "May-9", the session dated today is not the first entry |
| WorkoutInsights.CurrentSessionNumbers | FitSwift/Home/ViewModels/WorkoutAIInsightViewModel.swift:134-143 | the faked current session reads back as 30 minutes and 300 kcal, dated today |
| WorkoutInsights.MockLooksAgree | FitSwift/Home/ViewModels/WorkoutAIInsightViewModel.swift:376-404 | the looks of the mock workout list's kinds agree with the two lookups |
| WorkoutInsights.MockDistanceAndPace | FitSwift/Home/ViewModels/WorkoutAIInsightViewModel.swift:98-123 | by lower-cased type: running sets km and min/km texts when the duration parses; swimming sets metres and a per-100 m pace; cycling sets km and km/h; others may set a km distance and "N/A" pace |
| WorkoutInsights.HeartRateStats | FitSwift/Home/ViewModels/WorkoutAIInsightViewModel.swift:87-96 | no readings keep the old texts; otherwise the truncated average and the maximum, ordered between minimum and maximum |
| WorkoutInsights.MockHistoryOf | FitSwift/Home/ViewModels/WorkoutAIInsightViewModel.swift:131-173 | the current session, then four earlier sessions dated 3, 6, 9, 12 days ago with ids 101 to 104 |
| WorkoutInsights.CurrentEntry | FitSwift/Home/ViewModels/WorkoutAIInsightViewModel.swift:134-143 | the current entry is id 0, today, 30 minutes, 300 kcal |
| WorkoutInsights.EarlierEntry | FitSwift/Home/ViewModels/WorkoutAIInsightViewModel.swift:146-172 | an earlier entry has id 100 + i, 20 to 60 minutes and 150 to 500 kcal |
| WorkoutInsights.SortByDateDescending | FitSwift/Home/ViewModels/WorkoutAIInsightViewModel.swift:176 | the result is a reordering with date texts descending |
| WorkoutInsights.WorkoutAIInsightViewModel.constructor | FitSwift/Home/ViewModels/WorkoutAIInsightViewModel.swift:12-22 | empty lists, no improvement, every statistic "N/A" |
| WorkoutInsights.WorkoutAIInsightViewModel.LoadWorkoutDetails | FitSwift/Home/ViewModels/WorkoutAIInsightViewModel.swift:27-33 | thirty readings of 120 to 160, their statistics, a sorted five-entry history of the workout's type, the improvement of its first entry over its second, and the mock distance and pace texts of the workout's type |
| WorkoutInsights.WorkoutAIInsightViewModel.GenerateMockHeartRateData | FitSwift/Home/ViewModels/WorkoutAIInsightViewModel.swift:67-83 | thirty readings between 120 and 160; nothing else changes |
| WorkoutInsights.WorkoutAIInsightViewModel.GenerateMockWorkoutStats | FitSwift/Home/ViewModels/WorkoutAIInsightViewModel.swift:85-124 | heart-rate texts from the readings, distance and pace by type; nothing else changes |
| WorkoutInsights.WorkoutAIInsightViewModel.FetchPreviousWorkouts | FitSwift/Home/ViewModels/WorkoutAIInsightViewModel.swift:126-180 | five entries of the mock history, sorted by descending date text, and the improvement of the first over the second |
| WorkoutInsights.WorkoutAIInsightViewModel.GenerateImprovementText | FitSwift/Home/ViewModels/WorkoutAIInsightViewModel.swift:182-208 | fewer than two entries clear the text; otherwise text and flag describe the first entry against the second |
| WorkoutInsights.WorkoutAIInsightViewModel.GenerateInsights | FitSwift/Home/ViewModels/WorkoutAIInsightViewModel.swift:35-63 | the cards become the type's three cards, then the comparison card when there is a history |
| WorkoutInsights.WorkoutAIInsightViewModel.GenerateComparisonInsights | FitSwift/Home/ViewModels/WorkoutAIInsightViewModel.swift:340-371 | appends the comparison card, if any; nothing else changes |
| ChartDetail.MonthDates | FitSwift/Charts/ViewModel/ChartDetailViewModel.swift:148-158 | at most one date per month so far |
| ChartDetail.MonthDatesComplete | FitSwift/Charts/ViewModel/ChartDetailViewModel.swift:148-158 | exactly one point per month when every month's date can be built |
| ChartDetail.ShapePositive | FitSwift/Charts/ViewModel/ChartDetailViewModel.swift:89-176 | every generated series has positive values |
| ChartDetail.AscendingGaps | FitSwift/Charts/ViewModel/ChartDetailViewModel.swift:103 | distinct ascending dates grow by at least one per step |
| ChartDetail.SortedRecent | FitSwift/Charts/ViewModel/ChartDetailViewModel.swift:96-103 | sorting the backwards-generated series yields one point per unit, oldest first, values in range |
| ChartDetail.BackwardsReversed | FitSwift/Charts/ViewModel/ChartDetailViewModel.swift:96-103 | reversing the generated series is a sorted reordering of it |
| ChartDetail.SummaryOf | FitSwift/Charts/ViewModel/ChartDetailViewModel.swift:178-203 | "0" four times for no data; otherwise the four strings read back as the truncated average, the sum, the maximum and the minimum |
| ChartDetail.StatisticsOrdered | FitSwift/Charts/ViewModel/ChartDetailViewModel.swift:188-202 | lowest, average and highest read back in order |
| ChartDetail.HalvesSkipMiddle | FitSwift/Charts/ViewModel/ChartDetailViewModel.swift:208-209 | both halves have count / 2 points, and an odd count leaves the middle point out |
| ChartDetail.ShownPercentAtLeastTen | FitSwift/Charts/ViewModel/ChartDetailViewModel.swift:214-221 | a printed rise or fall is at least 10 percent |
| ChartDetail.TrendOf | FitSwift/Charts/ViewModel/ChartDetailViewModel.swift:206-231 | fewer than two points only set "not enough data"; otherwise up/green exactly on a rise of more than 10%, down/red exactly on such a fall, stable/blue otherwise |
| ChartDetail.TrendOfPositive | FitSwift/Charts/ViewModel/ChartDetailViewModel.swift:211-228 | on positive data the 10% test is an integer comparison of the half averages, and a printed change is at least 10% |
| ChartDetail.ShapeTrendDefined | FitSwift/Charts/ViewModel/ChartDetailViewModel.swift:205-231 | every generated series gets a trend without an infinite percentage |
| ChartDetail.PatternOf | FitSwift/Charts/ViewModel/ChartDetailViewModel.swift:234-243 | the year-to-date and one-year ranges share the year sentence, and only the week range gets the week sentence |
| ChartDetail.GoalPercent | FitSwift/Charts/ViewModel/ChartDetailViewModel.swift:246-252 | at or above goal prints 0 to 20 percent over; below prints 60 to 99 percent |
| ChartDetail.FirstIndexOf | FitSwift/Charts/ViewModel/ChartDetailViewModel.swift:270 | the first index holding the value |
| ChartDetail.PeakIndex | FitSwift/Charts/ViewModel/ChartDetailViewModel.swift:269-270 | the first point holding the maximum: no point is higher, and every earlier one is lower |
| ChartDetail.WeeklyInsights | FitSwift/Charts/ViewModel/ChartDetailViewModel.swift:257-294 | pattern card first, goal card last, and between them the peak day card naming the first maximum's day when there is data |
| ChartDetail.MonthlyInsights | FitSwift/Charts/ViewModel/ChartDetailViewModel.swift:296-326 | the trend card repeats the current trend's text, icon and colour, then two fixed cards |
| ChartDetail.Direction | FitSwift/Charts/ViewModel/ChartDetailViewModel.swift:332 | "increased" exactly for a green trend |
| ChartDetail.QuarterlyInsights | FitSwift/Charts/ViewModel/ChartDetailViewModel.swift:328-358 | the progress card takes the trend colour, then the seasonal card, then the achievement card with the average |
| ChartDetail.QuarterlyEchoesAverage | FitSwift/Charts/ViewModel/ChartDetailViewModel.swift:352 | the achievement card prints the average string the statistics show |
| ChartDetail.QuarterlyStableReadsDecreased | FitSwift/Charts/ViewModel/ChartDetailViewModel.swift:330-333 | a stable trend reads "decreased" on the quarterly card |
| ChartDetail.YearlyInsights | FitSwift/Charts/ViewModel/ChartDetailViewModel.swift:360-390 | annual card, year-in-review card without a recommendation, strategy card |
| ChartDetail.YearlyEchoesTotal | FitSwift/Charts/ViewModel/ChartDetailViewModel.swift:374 | the review card prints the total string the statistics show |
| ChartDetail.InsightsFor | FitSwift/Charts/ViewModel/ChartDetailViewModel.swift:72-81 | the cards of each range; two cards only for an empty week |
| ChartDetail.YearlyShared | FitSwift/Charts/ViewModel/ChartDetailViewModel.swift:79-80 | the year-to-date and one-year ranges get the same cards |
| ChartDetail.ChartDetailViewModel.constructor | FitSwift/Charts/ViewModel/ChartDetailViewModel.swift:19-37 | empty one-week bar chart, "0" statistics, gray arrow |
| ChartDetail.ChartDetailViewModel.LoadData | FitSwift/Charts/ViewModel/ChartDetailViewModel.swift:39-61 | records the range, its series, then the statistics, trend, pattern and goal sentence |
| ChartDetail.ChartDetailViewModel.GenerateRecentSeries | FitSwift/Charts/ViewModel/ChartDetailViewModel.swift:89-104 | one point per unit back, oldest first, values in range; only the series changes |
| ChartDetail.ChartDetailViewModel.GenerateWeeklyData | FitSwift/Charts/ViewModel/ChartDetailViewModel.swift:89-104 | 7 days of 5000 to 15000, oldest first |
| ChartDetail.ChartDetailViewModel.GenerateMonthlyData | FitSwift/Charts/ViewModel/ChartDetailViewModel.swift:106-121 | 30 days of 5000 to 15000, oldest first |
| ChartDetail.ChartDetailViewModel.GenerateThreeMonthData | FitSwift/Charts/ViewModel/ChartDetailViewModel.swift:123-138 | 90 days of 5000 to 15000, oldest first |
| ChartDetail.ChartDetailViewModel.GenerateYearlyData | FitSwift/Charts/ViewModel/ChartDetailViewModel.swift:161-176 | 12 months of 150000 to 300000, oldest first |
| ChartDetail.ChartDetailViewModel.GenerateYTDData | FitSwift/Charts/ViewModel/ChartDetailViewModel.swift:140-159 | one point per buildable month so far, unsorted |
| ChartDetail.ChartDetailViewModel.CalculateStatistics | FitSwift/Charts/ViewModel/ChartDetailViewModel.swift:178-203 | only the statistics change, to the summary of the series |
| ChartDetail.ChartDetailViewModel.GenerateTrendDescriptions | FitSwift/Charts/ViewModel/ChartDetailViewModel.swift:205-253 | the trend, the range's pattern sentence and the goal sentence |
| ChartDetail.ChartDetailViewModel.UpdateTrend | FitSwift/Charts/ViewModel/ChartDetailViewModel.swift:206-231 | only the trend changes, to the trend of the series |
| ChartDetail.ChartDetailViewModel.GenerateInsights | FitSwift/Charts/ViewModel/ChartDetailViewModel.swift:63-85 | the cards become the range's cards and loading ends |
| ChartDetail.ChartDetailViewModel.AppendWeeklyInsights | FitSwift/Charts/ViewModel/ChartDetailViewModel.swift:257-294 | appends the week's cards |
| ChartDetail.ChartDetailViewModel.AppendMonthlyInsights | FitSwift/Charts/ViewModel/ChartDetailViewModel.swift:296-326 | appends the month's cards |
| ChartDetail.ChartDetailViewModel.AppendQuarterlyInsights | FitSwift/Charts/ViewModel/ChartDetailViewModel.swift:328-358 | appends the quarter's cards |
| ChartDetail.ChartDetailViewModel.AppendYearlyInsights | FitSwift/Charts/ViewModel/ChartDetailViewModel.swift:360-390 | appends the year's cards |
| AIInsights.StepInsight | FitSwift/Home/ViewModels/AIInsightViewModel.swift:182-213 | exactly one step card: goal reached from 10000, "Almost There!" from 7000, an update below; achievement only for the goal |
| AIInsights.AlmostTherePercent | FitSwift/Home/ViewModels/AIInsightViewModel.swift:195-198 | "Almost There!" shows 70 to 99 percent |
| AIInsights.DailyProgressInsights | FitSwift/Home/ViewModels/AIInsightViewModel.swift:181-244 | the step card, then a calorie card from 600 kcal, then an exercise card from 30 minutes |
| AIInsights.TitleCount | FitSwift/Home/ViewModels/AIInsightViewModel.swift:250-253 | a title's tally never exceeds the number of workouts |
| AIInsights.TitleCountPositive | FitSwift/Home/ViewModels/AIInsightViewModel.swift:250-253 | a title is tallied exactly when some workout carries it |
| AIInsights.MapHasMax | FitSwift/Home/ViewModels/AIInsightViewModel.swift:256 | a non-empty tally has a largest entry |
| AIInsights.WorkoutPatternInsights | FitSwift/Home/ViewModels/AIInsightViewModel.swift:246-299 | three or more workouts give the preference card with the favourite's tally, plus a consistent card from 12 or a building card from 4; one or two give the getting-started card; none give nothing |
| AIInsights.PatternInsightCount | FitSwift/Home/ViewModels/AIInsightViewModel.swift:246-299 | the number of pattern cards does not depend on which most frequent title is named |
| AIInsights.StepsTrendInsights | FitSwift/Home/ViewModels/AIInsightViewModel.swift:305-334 | no card without a week of steps; otherwise positive above +10%, decreasing below -10%, nothing between |
| AIInsights.StepsTrendPositive | FitSwift/Home/ViewModels/AIInsightViewModel.swift:309-333 | on positive counts the 10% test is an integer comparison and a shown change is at least 10% |
| AIInsights.DaysMeetingGoal | FitSwift/Home/ViewModels/AIInsightViewModel.swift:338 | the goal days never exceed the days |
| AIInsights.AllDaysMeetGoal | FitSwift/Home/ViewModels/AIInsightViewModel.swift:338 | every day counts when every day reaches 30 minutes |
| AIInsights.ExerciseTrendInsights | FitSwift/Home/ViewModels/AIInsightViewModel.swift:337-359 | no card without a week of data; excellent from 5 goal days, good from 3, otherwise nothing |
| AIInsights.SumOfThree | FitSwift/Home/ViewModels/AIInsightViewModel.swift:309-310 | a three-day sum is the three values added |
| AIInsights.MockStepsAverages | FitSwift/Home/ViewModels/AIInsightViewModel.swift:126-134 | the mock step series averages 6000 to 7000 over its first three days and 8000 to 9000 over its last three, so the early average is never zero |
| AIInsights.MockStepsAlwaysPositive | FitSwift/Home/ViewModels/AIInsightViewModel.swift:305-323 | the mock step series always produces the positive trend card |
| AIInsights.MockExerciseAlwaysExcellent | FitSwift/Home/ViewModels/AIInsightViewModel.swift:337-348 | the mock exercise series always produces the excellent card for 7 days |
| AIInsights.AchievementInsights | FitSwift/Home/ViewModels/AIInsightViewModel.swift:362-393 | one achievement card per successful draw, streak first |
| AIInsights.RecommendationInsights | FitSwift/Home/ViewModels/AIInsightViewModel.swift:395-431 | balance first, suggestion last, recovery between exactly when drawn |
| AIInsights.AllInsightsBookends | FitSwift/Home/ViewModels/AIInsightViewModel.swift:162-179 | the whole list starts with the step card and ends with the workout suggestion |
| AIInsights.StepsAfterFormatted | FitSwift/Home/ViewModels/AIInsightViewModel.swift:55-58 | a step amount printed with grouping commas reads back as the count |
| AIInsights.AIInsightViewModel.constructor | FitSwift/Home/ViewModels/AIInsightViewModel.swift:12-24 | no cards, not loading, all metrics 0, no workouts and no trends |
| AIInsights.AIInsightViewModel.LoadInsights | FitSwift/Home/ViewModels/AIInsightViewModel.swift:26-43 | metrics from the fetch results, fresh mock trends, the cards generated from them, loading ended |
| AIInsights.AIInsightViewModel.FetchHealthData | FitSwift/Home/ViewModels/AIInsightViewModel.swift:47-120 | each metric takes its fetch result or 0 (steps keep their old value when the amount does not parse); mock trends refreshed |
| AIInsights.AIInsightViewModel.GenerateMockWeeklyTrends | FitSwift/Home/ViewModels/AIInsightViewModel.swift:122-160 | the four series are replaced by series in their ranges; other keys and fields are kept |
| AIInsights.AIInsightViewModel.GenerateInsights | FitSwift/Home/ViewModels/AIInsightViewModel.swift:162-179 | appends exactly the five generators' cards for some most frequent title, keeping earlier cards |
| AIInsights.AIInsightViewModel.GenerateDailyProgressInsights | FitSwift/Home/ViewModels/AIInsightViewModel.swift:181-244 | appends the daily progress cards |
| AIInsights.AIInsightViewModel.GenerateWorkoutPatternInsights | FitSwift/Home/ViewModels/AIInsightViewModel.swift:246-299 | appends the pattern cards naming a title no other outnumbers |
| AIInsights.AIInsightViewModel.GenerateTrendAnalysisInsights | FitSwift/Home/ViewModels/AIInsightViewModel.swift:301-360 | appends the steps then the exercise trend cards |
| AIInsights.AIInsightViewModel.GenerateAchievementInsights | FitSwift/Home/ViewModels/AIInsightViewModel.swift:362-393 | appends the achievement cards of the draws |
| AIInsights.AIInsightViewModel.GenerateRecommendationInsights | FitSwift/Home/ViewModels/AIInsightViewModel.swift:395-431 | appends the recommendation cards |
| AIInsights.TallyTitles | FitSwift/Home/ViewModels/AIInsightViewModel.swift:250-253 | the tally holds exactly the titles present, each with its count |
| AIInsights.StepsSeries | FitSwift/Home/ViewModels/AIInsightViewModel.swift:126-134 | day i is 6000 + 500 i within 500 |
| AIInsights.CaloriesSeries | FitSwift/Home/ViewModels/AIInsightViewModel.swift:136-145 | 400, plus 200 on the last two days, within 50 |
| AIInsights.RangeSeries | FitSwift/Home/ViewModels/AIInsightViewModel.swift:147-159 | seven values in range |
| Charts.MockTotalBounds | FitSwift/Charts/ViewModel/ChartsViewModel.swift:57-66 | a mock series of n days totals 5000 n to 15000 n steps |
| Charts.Received | FitSwift/Charts/ViewModel/ChartsViewModel.swift:67-86 | a failure changes nothing; a success takes both lists, their totals, and averages per elapsed month and per 12 months, and nothing else |
| Charts.YearAveragesInRange | FitSwift/Charts/ViewModel/ChartsViewModel.swift:72-79 | with every month fetched, the year-to-date list has one point per elapsed month, and both averages lie between their lists' smallest and largest month |
| Charts.ChartsViewModel.constructor | FitSwift/Charts/ViewModel/ChartsViewModel.swift:11-55 | mock series of 30 and 90 days, fixed samples, the year lists, totals and averages per the last month's callback (all empty or 0 when month -11 fails), week/month/quarter figures 0 |
| Charts.ChartsViewModel.MockDataForDays | FitSwift/Charts/ViewModel/ChartsViewModel.swift:57-66 | entry k is k days back with 5000 to 15000 steps |
| Charts.ChartsViewModel.Receive | FitSwift/Charts/ViewModel/ChartsViewModel.swift:68-85 | the new state is the received one |
| Charts.ChartsViewModel.FetchYTDAndOneYearChartData | FitSwift/Charts/ViewModel/ChartsViewModel.swift:67-86 | unchanged unless month -11 is fetched; then the state received from the two lists |
| HealthManager.WholeMinutes | FitSwift/Managers/HealthManager.swift:168 | the whole minutes of a non-negative duration: 60 m ≤ d < 60 (m + 1) |
| HealthManager.MinutesOfAppend | FitSwift/Managers/HealthManager.swift:160-182 | the minutes of a concatenation add up |
| HealthManager.MinutesOfSwap | FitSwift/Managers/HealthManager.swift:160-182 | the totals do not depend on the order of the workouts |
| HealthManager.OtherActivityIgnored | FitSwift/Managers/HealthManager.swift:160-182 | an untracked type changes no total |
| HealthManager.MinutesOfBounds | FitSwift/Managers/HealthManager.swift:160-182 | each total is between 0 and the sum of all totals |
| HealthManager.WeeklyDurations | FitSwift/Managers/HealthManager.swift:160-182 | the loop's six counters are the minutes of their types |
| HealthManager.IntToStringEndsInDigit | FitSwift/Managers/HealthManager.swift:191-196 | a printed integer ends in a digit, never in " mins" |
| HealthManager.WithMinsEndsWithMins | FitSwift/Managers/HealthManager.swift:191-196 | an amount with the suffix ends with " mins" |
| HealthManager.GenerateActivitiesFromDurations | FitSwift/Managers/HealthManager.swift:189-198 | six cards whose amounts show the six minute counts, running and kickboxing with " mins" |
| HealthManager.ActivityLayout | FitSwift/Managers/HealthManager.swift:189-198 | fixed order of titles and images, each green and "This week" |
| HealthManager.MinutesSuffixPlacement | FitSwift/Managers/HealthManager.swift:191-196 | exactly the first and last amounts end with " mins" |
| HealthManager.ActivityAmountsReadBack | FitSwift/Managers/HealthManager.swift:191-196 | every amount reads back as its minutes once the suffix is cut |
| HealthManager.FetchCurrentWeekWorkoutStats | FitSwift/Managers/HealthManager.swift:151-187 | fails exactly when the query fails; otherwise the cards of the weekly minutes |
| HealthManager.StandHours | FitSwift/Managers/HealthManager.swift:113-129 | fails exactly when the query fails; otherwise the number of samples with value 0 |
| HealthManager.StandHoursExtremes | FitSwift/Managers/HealthManager.swift:124 | all samples count exactly when all are 0; none exactly when none is |
| HealthManager.SameYearIff | FitSwift/Managers/HealthManager.swift:254 | month -i is in the current year exactly when i < currentMonth |
| HealthManager.OneYearMonths | FitSwift/Managers/HealthManager.swift:248-252 | at most one point per month queried |
| HealthManager.YtdMonths | FitSwift/Managers/HealthManager.swift:248-257 | at most one point per month queried |
| HealthManager.OneYearComplete | FitSwift/Managers/HealthManager.swift:237-257 | with every month fetched, the one-year list holds every month from now backwards |
| HealthManager.YtdIsPrefix | FitSwift/Managers/HealthManager.swift:248-257 | with every month fetched, the year-to-date list is the first currentMonth months of the one-year list |
| HealthManager.FetchYTDAndOneYearChartData | FitSwift/Managers/HealthManager.swift:231-266 | one failure per failed month, and a final success with both lists exactly when month -11 is fetched |
| InsightsView.DisplayName | FitSwift/Home/Views/InsightsView.swift:121-129 | every filter has a non-empty label |
| InsightsView.DisplayNamesDistinct | FitSwift/Home/Views/InsightsView.swift:121-129 | no two filters share a label |
| InsightsView.FilterFor | FitSwift/Home/Views/InsightsView.swift:101-108 | every insight type has a typed filter selecting it |
| InsightsView.FilteredInsights | FitSwift/Home/Views/InsightsView.swift:97-110 | never longer than the list; All shows everything; a typed filter shows only its type |
| InsightsView.TypedFilterIsKeep | FitSwift/Home/Views/InsightsView.swift:101-108 | a typed filter is the order-preserving selection of its type |
| InsightsView.TypedFilterExact | FitSwift/Home/Views/InsightsView.swift:101-108 | a typed filter shows every insight of its type and nothing else |
| InsightsView.FilterPreservesOrder | FitSwift/Home/Views/InsightsView.swift:97-110 | filtering a concatenation filters each part in place |
| InsightsView.TypedFiltersPartition | FitSwift/Home/Views/InsightsView.swift:101-108 | each insight is shown by exactly one typed filter |
| InsightsView.TypedFiltersCount | FitSwift/Home/Views/InsightsView.swift:101-108 | the four typed filters together show as many cards as the list holds |
| Text.FormatDecimalRoundTrip | FitSwift/Charts/ViewModel/ChartDetailViewModel.swift:394-398 | a number printed with grouping commas reads back, commas removed, as itself |
| Text.Trim | FitSwift/Services/GeminiService.swift:355 | the result is the slice of the input left after dropping its leading and trailing whitespace: no whitespace at either end, and only whitespace outside the slice |
| GeminiService.Converted | FitSwift/Services/GeminiService.swift:135-144 | at most one command per structured call; ConvertedFromCalls and ConvertedAppend tie each command to its call and keep call order |
| GeminiService.ConvertedAppend | FitSwift/Services/GeminiService.swift:135-144 | commands keep call order: the commands of two runs of calls are those of the first run, then those of the second |
| Patterns.BlocksSkip | FitSwift/Services/GeminiService.swift:232 | scanning resumes at the next match: positions where no block starts contribute nothing |
| Patterns.ValueAt | FitSwift/Services/GeminiService.swift:323 | a `"key" : "value"` match at a position needs the quoted key there, and captures a non-empty value without quotes |
| Patterns.FirstValueAt | FitSwift/Services/GeminiService.swift:323-330 | the leftmost position from a start where the key pattern matches, or none when no position matches |
| Text.Lower | FitSwift/Chat/ViewModel/ChatViewModel.swift:38 | lower-casing keeps the length and maps each character on its own |
| Text.LowerIdempotent | FitSwift/Chat/ViewModel/ChatViewModel.swift:38 | lower-casing twice is lower-casing once |
| Text.ParseInt | FitSwift/Chat/ViewModel/ChatViewModel.swift:77 | `Int(String)` succeeds exactly on a signed digit string whose value fits in 64 bits, and gives that value |
| Text.ParseIntToString | FitSwift/Chat/ViewModel/ChatViewModel.swift:77 | a printed integer parses back as itself |
| Text.FirstComponent | FitSwift/Home/Models/PreviousWorkout.swift:19-25 | the first space-separated component: the longest prefix without a space |
| Numbers.AverageBetweenMinAndMax | FitSwift/Charts/ViewModel/ChartDetailViewModel.swift:188-202 | the truncated average of a non-empty list lies between its minimum and maximum |

## Left out

- Network, HealthKit and concurrency. The Gemini request, the HealthKit queries, permission
  requests, dispatch queues, dispatch groups and `asyncAfter` delays are not modelled. Their
  results come in as parameters, and a delayed block runs at once.
- HealthManager.FetchYTDAndOneYearChartData: the twelve month callbacks are assumed to arrive in
  the order issued. HealthKit does not promise this, and the source reports success from
  whichever callback handles month -11.
- The HealthKit queries themselves are not part of this model: today's steps, calories,
  exercise time, stand samples, month workouts and monthly step totals. Only what the code
  computes from their results is modelled.
- Floating point. Durations, calories, percentages and goal ratios are exact reals, and `Int(_)`
  is truncation toward zero. `Float` rounding in the 10% tests is not modelled.
- WorkoutInsights.MockDistanceAndPace: only the unit each distance and pace text ends with is
  stated. `String(format: "%.2f")` and `Double.random(in:precision:)` are not modelled.
- The `%.1f` workouts-per-week text, the weekday name of the peak day, and the calendar's date
  labels are parameters (`oneDecimal`, `dayName`, `dateLabel`, `monthLabel`), not modelled
  formatters.
- `DateFormatter` parsing in the workout-list sort, and the comparators of the other sorts.
  Each sort is modelled as some reordering (a permutation). The history sort of the workout
  insight screen also keeps its date-text order.
- UUIDs of messages, insight cards and chart points.
- Dates are whole-number offsets from now. Calendar arithmetic and the `?? Date()` fallbacks
  are not modelled, except as parameters saying whether a date exists.
- `lowercased()` and the search cover ASCII letters only. Unicode case mapping is not modelled.
- Text.IsSpace is ASCII whitespace only (space, tab, newline, carriage return, vertical tab,
  form feed). `.whitespacesAndNewlines` in the trim (GeminiService.swift:355) and `\s` in the
  block, name and key/value patterns (GeminiService.swift:226, 262, 322, 340, 348) also match
  Unicode spaces such as U+00A0 and U+2028, which the model treats as ordinary characters.
- The regular expressions in `parseToolResponseFromText` and `extractStringValue` are given
  `jsonString.count` as their `NSRange` length (GeminiService.swift:266, 326). That is a count of
  Characters used as a UTF-16 length, so for a body holding characters outside the Basic
  Multilingual Plane (emoji) the source searches only a shortened prefix. The model always
  searches the whole body.
- `Int(String)` is a sign followed by ASCII digits. Doubles parse only from whole numbers.
- Integers are unbounded. Step sums and totals that would overflow a 64-bit `Int` and trap are
  not modelled.
- ChartDetail.TrendOf requires `TrendDefined`. A zero first-half average with a non-zero second
  half makes the source trap on an infinite percentage. Every generated series meets the
  requirement (`ChartDetail.ShapeTrendDefined`).
- AIInsights.StepsTrendInsights requires `StepsTrendDefined`, for the same trap.
- Charts.ChartsViewModel.MockDataForDays requires `days >= 0`, because a negative count traps
  on the range `0..<days`.
- HealthManager.FetchYTDAndOneYearChartData and the Charts members require a current month of
  1 to 12, as the calendar returns.
- ChartsViewModel never assigns the week, month and three-month totals and averages, so they
  stay 0. ChartDetail keeps `chartDisplayType` as a field that only the view toggles; no
  view-model member changes it.
- Number grouping is fixed to the en_US locale (comma every three digits, `-` sign).
  `NumberFormatter` with `.decimal` style follows the device locale, so Text.FormatDecimal and
  the read-backs built on it (ChartDetail.SummaryOf, Chat.StepReplyOfCount,
  AIInsights.StepsAfterFormatted) hold for that locale only.
- The remaining view files, profile and add-workout forms, `formatWorkoutDate`, the Activity
  model's other uses, and `HKWorkoutActivityType` names are outside this model.
