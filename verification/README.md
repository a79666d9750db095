# BeauClick, proved

A Dafny model of the parts of the BeauClick platform whose correctness spans several functions or
several requests at once, with proofs that hold for every input, every run and every interleaving.

* **The Jalali calendar.** `Truncation`, `Gregorian`, `JalaliTable`, `JalaliYears` and `Jalali` model
  the calendar kernel: truncating division, the Julian Day formulas in both directions, the walk over
  the break table with its three special cases, and the conversion both ways. The Gregorian rules are
  those of section 3.2.1 of ISO 8601:2004. `DateInput` puts the date input on top of them.
* **Protocols of the web client.** `AuthSession` is the shared refresh against a server that rotates
  its refresh tokens, with the one retry after a 401; `ChatThread` the read watermark under
  overlapping mark-read requests; `SettlementSeries` the latest-request-wins series of the finance
  page; `PollLoop` the polling loop. Each is a class with the source's refs, whose methods are proved
  equal to functions on the state, and a transition system over those functions in which answers,
  failures, clicks and timers come in any order.
* **Stateful algorithms.** `MessageMerge` merges message pages, `Migrations` runs migrations through
  failures and crashes at any statement, `MigrationRace` does so with several runners at once,
  `SlotGroups` groups slots by day, `RestoreCheck` compares a restored database with its backup.
  `Sorting` and `Grouping` hold what they need of stable sorting; `Options` is the optional value.

`dafny verify dfyconfig.toml` checks the whole project.

Four places where the code does less than a reader may expect are stated as such, each with the
condition that decides and a run that fails it: a settlement error can be drawn for a moment under
another workspace than the one it came from (`ErrorBelongs`, `ErrorUnderAnother`), a series that was
answered can be cleared and never asked for again (`LatestIsDrawn`, `StuckLoading`), a poll can start
after the clean-up of the loop (`SilentAfterCleanUp`, `SilentAfterRun`, `PollAfterCleanUp`), and a
refresh that was given up can still end the session when it reaches the server late
(`SessionEndsExactlyWhen`, `LateRefreshEndsTheChain`).

## Model

| member | source | states |
|---|---|---|
| Truncation.Truncates | app/src/lib/jalali.ts:27-33 | `mod` is the remainder that goes with the truncated quotient: smaller than the divisor, with the dividend's sign. |
| Gregorian.GregorianRoundTrip | app/src/lib/jalali.ts:79-93 | `d2g` undoes `g2d` on every proleptic Gregorian date from 1 March of year -100100 on. |
| Gregorian.DayNumberRoundTrip | app/src/lib/jalali.ts:79-93 | `g2d` undoes `d2g` on every day number from there on, and `d2g` always gives a valid date. |
| Gregorian.NextDayNumber | app/src/lib/jalali.ts:79-83 | The next calendar day, by the leap rule and the month lengths, has the next day number. |
| Gregorian.YearOf | app/src/lib/jalali.ts:85-93 | The year read off a day number is the one whose first day is at or before it and whose successor's is after it. |
| JalaliTable.WalkTable | app/src/lib/jalali.ts:45-57 | The loop ends in the segment that holds the year, with the leap years of all segments before it. |
| JalaliTable.ComputeJalCal | app/src/lib/jalali.ts:44-77 | The function as the program runs it, special cases included, equals its specification for any break table and any year. |
| JalaliTable.CycleLeap | app/src/lib/jalali.ts:68-74 | Moving `n` and mending -1 gives the leap field. |
| JalaliTable.CountLeaps | app/src/lib/jalali.ts:59-63 | The count within a segment, with the leap day added by hand four years before the end of a segment of 4 modulo 33. |
| JalaliTable.LeapFieldCounts | app/src/lib/jalali.ts:68-74 | The rewriting of `n` in the last five years is the same as counting on to the segment's end without it. |
| JalaliTable.LeapsStepLastFive | app/src/lib/jalali.ts:59-63 | In the last five years of a segment, the year's own count and the whole segment's count differ by exactly the leap years between, whether or not the leap day was added by hand. |
| JalaliTable.TableStep | app/src/lib/jalali.ts:44-77 | Across any regular table, breaks and both special cases included, `leapJ` grows by one exactly after a year whose leap field is 0, and the leap field stays in 0..4 and is followed by itself plus one or by 0. |
| JalaliYears.SplitOffset | app/src/lib/jalali.ts:105-120 | The branching on `k`, with its updates of `jy` and `k`, is the split of an offset into month and day. |
| JalaliYears.OffsetBeforeNewYear | app/src/lib/jalali.ts:112-120 | Counting back from the next new year, with one day more when its leap field is 1, gives the date of the year before. |
| JalaliYears.BackFromEitherYear | app/src/lib/jalali.ts:100-121 | A date comes back from either of the two Gregorian years it can fall in, so one step back in `jy` is enough. |
| JalaliYears.JalaliRoundTrip | app/src/lib/jalali.ts:95-121 | `d2j` undoes `j2d` for any years whose new years are in March and as far apart as their leap fields say. |
| JalaliYears.DayRoundTrip | app/src/lib/jalali.ts:95-121 | And `j2d` undoes `d2j`, which always gives a valid date. |
| JalaliYears.OrderIsomorphism | app/src/lib/jalali.ts:95-98 | For such years day numbers are in order exactly when dates are. |
| JalaliYears.NewYearCountsLeapYears | app/src/lib/jalali.ts:95-98 | A new year is 365 days a year, and one for each leap year counted one at a time, after the first. |
| JalaliYears.SinceLeapYear | app/src/lib/jalali.ts:71-74 | The leap field is the number of years since the last leap year. |
| JalaliYears.LeapFieldCountsBack | app/src/lib/jalali.ts:71-74 | For leap fields that cycle from a leap year on, each counts back to the last leap year. |
| JalaliYears.FourOrFiveApart | app/src/lib/jalali.ts:71-74 | For such leap fields consecutive leap years are 4 or 5 years apart. |
| Jalali.ComputeD2j | app/src/lib/jalali.ts:100-121 | `d2j` as the program runs it equals its specification on every day number. |
| Jalali.JalaliThereAndBack | app/src/lib/jalali.ts:95-143 | Every valid Jalali date of the years -61..3177 comes back from `toGregorian` followed by `toJalali`, through a valid Gregorian date of the span. |
| Jalali.GregorianThereAndBack | app/src/lib/jalali.ts:95-143 | Every Gregorian date of the span, 20 March 560 up to 20 March 3799, becomes a valid Jalali date and comes back. |
| Jalali.ConversionFollowsTheCalendars | app/src/lib/jalali.ts:135-155 | `toJalali` carries the day after a Gregorian date to the day after its Jalali date. |
| Jalali.NextDayCounted | app/src/lib/jalali.ts:95-98 | The successor of a date under `jalaliMonthLength`, over day, month and year, is exactly one day later. |
| Jalali.MonthLengthCounts | app/src/lib/jalali.ts:151-155 | `jalaliMonthLength` is the number of days from the first of the month to the first of the next, or of the next year. |
| Jalali.DatesInOrder | app/src/lib/jalali.ts:95-98 | Day numbers are in order exactly when the dates are, by year, month and day. |
| Jalali.YearLength | app/src/lib/jalali.ts:95-98 | A year has 366 days exactly when `isJalaliLeapYear` says so, and 365 otherwise. |
| Jalali.YearStep | app/src/lib/jalali.ts:59-76 | Of every year of the shipped table: the day count and the leap field agree on its length, and the leap field leads to the next year's. |
| Jalali.YearsSinceLeapYear | app/src/lib/jalali.ts:68-74 | Going back as many years as the leap field says, four at most, finds the last leap year of the table, for every year of the table. |
| Jalali.MarchWindow | app/src/lib/jalali.ts:65-66 | New year is on 20, 21 or 22 March in every year of the table and the year after it. |
| Jalali.MarchReached | app/src/lib/jalali.ts:65-66 | Each of the three days is reached, so the window is the tightest. |
| Jalali.WalkCountsLeapYears | app/src/lib/jalali.ts:44-63 | The table walk's `leapJ` is -14 plus the number of years since -61 for which `isJalaliLeapYear` holds. |
| Jalali.LeapYearsFourOrFiveApart | app/src/lib/jalali.ts:59-76 | Consecutive leap years are 4 or 5 years apart, across breaks too. |
| Jalali.ReferenceDates | app/src/lib/jalali.test.ts:5-13 | 11 February 1979 is 22 Bahman 1357 and 20 March 2024 is 1 Farvardin 1403, in both directions. |
| Jalali.BeforeTheTable | app/src/lib/jalali.ts:36-77 | Before the table the claims stop being true: -65 is called a leap year and has 365 days. |
| DateInput.EmittedDateIsReadBack | app/src/design-system/primitives/JalaliDateInput.tsx:33-50 | Emitting a date and parsing what was emitted gives the year and month chosen and the smaller of the day chosen and the month's length; what is emitted spells that day's Gregorian date as `YYYY-MM-DD`. |
| DateInput.ValidDateIsStored | app/src/design-system/primitives/JalaliDateInput.tsx:45-50 | Every valid date of the table is stored as the Gregorian date of the same day, and read back as itself. |
| DateInput.Decimal | app/src/design-system/primitives/JalaliDateInput.tsx:49-49 | The digits are decimal: each counts for its place among 0123456789 and moves those before it up by ten. |
| DateInput.ThreeParts | app/src/design-system/primitives/JalaliDateInput.tsx:33-39 | Three parts select the date they name when all are numbers, and nothing otherwise. |
| DateInput.FewerParts | app/src/design-system/primitives/JalaliDateInput.tsx:33-39 | One or two parts select nothing when one is not a number or there is nothing at all, and otherwise a date that is none. |
| AuthSession.BuildHeaders | v3/apps/web/lib/api-client.ts:76-91 | The caller's headers, the content type when there is a body, the bearer token when there is one, and on the client that sends cookies the CSRF token when there is one; an empty token is none. |
| AuthSession.HeadersSpeltOut | v3/apps/web/lib/api-client.ts:76-91 | Exactly which header names there are, and what each says, word for word. |
| AuthSession.SingleFlight | v3/apps/web/lib/auth-context.tsx:113-132 | In every interleaving of any number of callers at most one refresh is in flight. |
| AuthSession.NoTokenIsReplayed | v3/services/identity/src/token/token.service.ts:119-186 | The server is shown a token twice exactly when it is shown the cookie after a new token was lost, or a refresh given up before reaches it after another rotation; until then it sees every token once, in order, and does not revoke. |
| AuthSession.SessionEndsExactlyWhen | v3/services/identity/src/token/token.service.ts:188-224 | After any run the chain is revoked exactly when one of these replays came outside the moment of grace. |
| AuthSession.AnsweredRefreshesNeverReplay | v3/apps/web/lib/auth-context.tsx:113-163 | When every refresh is answered to the browser, the server sees each token once, in order, and never revokes. |
| AuthSession.EveryCallRetriesOnce | v3/apps/web/lib/api-client.ts:142-169 | A request is sent at most twice: twice exactly when its first answer was a 401, it has gone on after the wait, and the tokens of the refresh it waited for were delivered. Each message asks what the call asked; the second differs in the bearer token only. |
| AuthSession.RefreshedExactlyWhenDelivered | v3/apps/web/lib/auth-context.tsx:150-158 | In every run a refresh counts as successful exactly when the run has delivered its tokens while the server had granted it. |
| AuthSession.RefreshLeaves | v3/apps/web/lib/auth-context.tsx:150-164 | A delivery of tokens leaves the access token that came and a live cookie; one without tokens changes nothing; a refresh denied, unreadable or given up leaves no token, no user and the session unauthenticated. In every case nothing is in flight afterwards. |
| AuthSession.SentUnderTheTokenOfTheMoment | v3/apps/web/lib/api-client.ts:149-163 | A call sends one message when it is made, one more when it goes on after a delivered refresh and none after a failed one, each with the request's own verb, path, body and headers and the access token of that moment. |
| AuthSession.UnauthorizedJoinsTheRefresh | v3/apps/web/lib/api-client.ts:152-156 | A first 401 waits for the refresh under way, and begins one under the cookie exactly when there is none. |
| AuthSession.ReplayIsTheSameCall | v3/apps/web/lib/api-client.ts:158-163 | The retry differs from the first message in the bearer token only. |
| AuthSession.LostAnswerEndsTheChain | v3/services/identity/src/token/token.service.ts:213-224 | After any run that lost a new token the next refresh the server looks at is denied and, outside the moment of grace, the chain is revoked and never renewed. |
| AuthSession.LateRefreshEndsTheChain | v3/services/identity/src/token/token.service.ts:213-224 | A run without a lost answer in which a refresh that was given up arrives late and revokes the chain, as the condition says. |
| AuthSession.AuthProvider.RefreshSession | v3/apps/web/lib/auth-context.tsx:141-163 | Up to its await: an attempt under way is shared, otherwise one is begun; nothing else changes. |
| AuthSession.AuthProvider.Settle | v3/apps/web/lib/auth-context.tsx:141-163 | From the await on: the access token and a CSRF token that came with it are kept, or tokens, user and session are given up, or nothing is, and the attempt is over in every case. |
| MessageMerge.MergeMessages | v3/apps/web/components/chat-inbox.tsx:302-306 | The map filled from both lists and sorted is the thread the messages make one by one. |
| MessageMerge.LastOfNumber | v3/apps/web/components/chat-inbox.tsx:302-306 | The map holds of every sequence number the last message of the list that has it. |
| MessageMerge.MergeIsUnion | v3/apps/web/components/chat-inbox.tsx:302-306 | The merged thread ascends strictly and holds exactly the messages of both lists, the incoming one winning. |
| MessageMerge.MergeIsIdempotent | v3/apps/web/components/chat-inbox.tsx:302-306 | Merging the same page again changes nothing. |
| MessageMerge.MergedPages | v3/apps/web/components/chat-inbox.tsx:440-464 | Pages of one log merge to exactly the messages of all of them. |
| MessageMerge.PagesInAnyOrder | v3/apps/web/components/chat-inbox.tsx:440-464 | The order in which agreeing pages arrive does not show. |
| ChatThread.NewestOf | v3/apps/web/components/chat-inbox.tsx:412-436 | The greatest sequence of a page, 0 for an empty one. |
| ChatThread.WatermarkOnlyGrows | v3/apps/web/components/chat-inbox.tsx:337-398 | Over any run, also with the same reader on other devices, the confirmed watermark never decreases and never passes what the server has recorded, and no message leaves the thread. |
| ChatThread.NoMarkTwice | v3/apps/web/components/chat-inbox.tsx:337-398 | No two mark-read requests under way carry the same sequence, however they complete or fail. |
| ChatThread.ThreadShowsLog | v3/apps/web/components/chat-inbox.tsx:400-471 | The thread is in order, without repetition, all from the log, and `newestSeen` is its newest. |
| ChatThread.PagesAreShown | v3/apps/web/components/chat-inbox.tsx:400-471 | After any run a loaded, polled or older page or a sent message is shown whole, with all that was shown before and nothing else; the mark for older messages is the one that came with the page; a poll with nothing newer changes nothing. |
| ChatThread.MarksAreNews | v3/apps/web/components/chat-inbox.tsx:381-384 | A mark-read request is only ever sent for the newest message, beyond what is confirmed and beyond every request under way. |
| ChatThread.PollAsksAgain | v3/apps/web/components/chat-inbox.tsx:431-456 | After a load or a poll that ends well everything seen is confirmed or being asked for; with nothing under way and something unconfirmed it has sent exactly one new request, for the newest. |
| ChatThread.AnswerConfirms | v3/services/chat/src/chat.service.ts:527-545 | An answered request is confirmed, in whatever order answers arrive: the watermark becomes what the answer says, or what was asked when it says nothing, unless it was beyond that already. |
| ChatThread.FailureConfirmsNothing | v3/apps/web/components/chat-inbox.tsx:390-395 | A request that fails leaves the watermark and takes down its own marker only. |
| ChatThread.Thread.MarkRead | v3/apps/web/components/chat-inbox.tsx:381-398 | A request is sent, and remembered, only beyond what is confirmed and beyond what is under way. |
| ChatThread.Thread.MarkAnswered | v3/apps/web/components/chat-inbox.tsx:381-398 | An answer only ever raises the watermark. |
| ChatThread.Thread.MarkEnded | v3/apps/web/components/chat-inbox.tsx:393-395 | The marker is taken down by the request it stands for only. |
| ChatThread.Thread.LoadAnswered | v3/apps/web/components/chat-inbox.tsx:400-417 | The first page is shown, its newest sequence remembered and asked for. |
| ChatThread.Thread.PollAnswered | v3/apps/web/components/chat-inbox.tsx:431-456 | Newer messages are merged in and asked for at once. |
| ChatThread.Thread.PollEnds | v3/apps/web/components/chat-inbox.tsx:445-448 | Anything seen and not confirmed is asked for again. |
| ChatThread.Thread.OlderAnswered | v3/apps/web/components/chat-inbox.tsx:458-471 | Older messages are merged in and the page mark moves on. |
| ChatThread.Thread.OnSent | v3/apps/web/components/chat-inbox.tsx:559-565 | The message sent is merged in and counts as seen. |
| SettlementSeries.ClickAsksAfresh | v3/apps/web/components/finance-workspace.tsx:374-380 | A click on another workspace leaves neither chart nor error drawn and begins that workspace's own call. |
| SettlementSeries.ClickOnDrawn | v3/apps/web/components/finance-workspace.tsx:374-375 | A click on the workspace that is drawn leaves the page as it is. |
| SettlementSeries.ListIsTakenOver | v3/apps/web/components/finance-workspace.tsx:209-222 | A list is taken over with nothing else of the page: the active workspace stays if listed, else the only one listed is active, else none. |
| SettlementSeries.DrawnIsLatest | v3/apps/web/components/finance-workspace.tsx:169-177 | After any run a drawn chart is the answer to the most recent `loadSeries` call and belongs to the active workspace; a drawn error is that call's failure. |
| SettlementSeries.LatestIsDrawn | v3/apps/web/components/finance-workspace.tsx:339-350 | What is drawn after any run, case by case: nothing without a listed active workspace; else the latest call's items under their own workspace, or its failure, exactly when it was answered and no loss has taken effect since; else loading. |
| SettlementSeries.StuckLoading | v3/apps/web/components/finance-workspace.tsx:236-246 | A run that loses one workspace and lists another again before drawing: all is answered and drawn, nothing is under way, and the page stays on loading. |
| SettlementSeries.OlderAnswersDropped | v3/apps/web/components/finance-workspace.tsx:332-353 | Leaving out of a run every answer, failure and refusal of a call that is no longer the latest changes nothing that is drawn, held or asked. |
| SettlementSeries.RefusalOfTheLatest | v3/apps/web/components/finance-workspace.tsx:236-246 | The refusal of the latest call, if that loss was handled before, leaves the page as it is; otherwise nothing stays drawn and exactly its workspace goes off the list. Once the drawn workspace's effect has run, that is the active one. |
| SettlementSeries.NextLossTakesEffect | v3/apps/web/components/finance-workspace.tsx:236-246 | Once a workspace has been opened, its next loss takes effect, whatever comes between and was lost before: none is active, nothing is drawn, exactly it is off the list, and the list is asked for. |
| SettlementSeries.LossTakesEffectOnce | v3/apps/web/components/finance-workspace.tsx:238-239 | The same loss reported again changes nothing more. |
| SettlementSeries.ErrorBelongs | v3/apps/web/components/finance-workspace.tsx:590-591 | Of an error drawn after any run: while a workspace is drawn and its effect has run, it belongs to the active workspace exactly when that is the one drawn; a due effect puts it away; and at any time it belongs to the workspace that was drawn when the latest call was made. |
| SettlementSeries.ErrorUnderAnother | v3/apps/web/components/finance-workspace.tsx:590-591 | A run that draws a lost workspace's late failure under the next one, where the condition is false. |
| SettlementSeries.FinancePage.LoadSeries | v3/apps/web/components/finance-workspace.tsx:332-338 | Takes the next number and puts the series back to loading. |
| SettlementSeries.FinancePage.SeriesAnswered | v3/apps/web/components/finance-workspace.tsx:339-350 | An answer with an older number changes nothing; the latest one's items, failure or refusal takes effect. |
| SettlementSeries.FinancePage.HandleAuthorityLoss | v3/apps/web/components/finance-workspace.tsx:236-246 | The first loss of a workspace clears the page and drops it from the list, a repeated one does nothing. |
| SettlementSeries.FinancePage.SelectWorkspace | v3/apps/web/components/finance-workspace.tsx:374-380 | A new selection clears the page first. |
| SettlementSeries.FinancePage.WorkspacesAnswered | v3/apps/web/components/finance-workspace.tsx:209-222 | The active workspace is kept if it is still listed, a single one is opened, otherwise none is. |
| SettlementSeries.FinancePage.ActiveEffect | v3/apps/web/components/finance-workspace.tsx:362-372 | A newly active workspace forgets the loss handled before and asks for its series. |
| PollLoop.StepKeepsChains | v3/apps/web/lib/chat-polling.ts:39-60 | No step ends a chain of the loop, and one more begins exactly when the tab comes into view with no timer remembered. |
| PollLoop.LoopNeverDies | v3/apps/web/lib/chat-polling.ts:32-72 | While enabled there is always a timer pending or a poll under way, one chain more than there were such visibility changes, and every timer has the active or the idle interval. |
| PollLoop.DelayFollowsStreak | v3/apps/web/lib/chat-polling.ts:17-20 | In every run the end of a poll sets one timer, to 60 seconds exactly when the tab is hidden or five polls in a row brought nothing, and to the active interval otherwise. |
| PollLoop.BeginsWithATimer | v3/apps/web/lib/chat-polling.ts:64-64 | The loop begins with one timer, idle in a hidden tab, and no poll. |
| PollLoop.PollsStart | v3/apps/web/lib/chat-polling.ts:46-62 | In every run a timer that fires starts a poll, a tab that comes into view starts one at once in place of the remembered timer, a hidden one changes nothing, and no other timer is touched. |
| PollLoop.NothingAfterCleanUp | v3/apps/web/lib/chat-polling.ts:65-70 | After the clean-up no timer is ever set again, and as many polls can start, and no more, as there are timers the loop has lost sight of, at most one for each time a chain was split off. |
| PollLoop.SilentAfterCleanUp | v3/apps/web/lib/chat-polling.ts:65-70 | No poll starts after the clean-up exactly when, before it, every pending timer is the one the loop remembers. |
| PollLoop.SilentAfterRun | v3/apps/web/lib/chat-polling.ts:55-70 | In terms of a run: exactly when every chain split off is polling at the clean-up, and so is the first one if no timer is remembered. |
| PollLoop.PollAfterCleanUp | v3/apps/web/lib/chat-polling.ts:65-70 | A run in which the tab comes into view during a poll, both polls end, the loop is cleaned up, and the timer lost sight of starts a poll. |
| PollLoop.Poller.RunEnds | v3/apps/web/lib/chat-polling.ts:44-54 | From the await on: the streak is counted and the next timer set, unless cleaned up. |
| PollLoop.Poller.VisibilityChanged | v3/apps/web/lib/chat-polling.ts:55-60 | Coming into view clears the remembered timer and polls at once. |
| PollLoop.Poller.CleanUp | v3/apps/web/lib/chat-polling.ts:66-70 | The remembered timer is cleared and nothing else. |
| Migrations.PendingInOrder | v3/database/scripts/migrate.ts:88-94 | A run goes through exactly the files whose names end in `.sql`, by file name whatever the schema and by schema where names are equal, whatever order directories are read in. |
| Migrations.PendingKeysDistinct | v3/database/scripts/migrate.ts:88-94 | No two files share a key. |
| Migrations.FirstSlash | v3/database/scripts/migrate.ts:92-92 | A key reads as the directory up to its first slash and the file after it. |
| Migrations.KeyTellsFiles | v3/database/scripts/migrate.ts:92-92 | A key belongs to one file only, as no directory name holds a slash. |
| Migrations.ApplyFile | v3/database/scripts/migrate.ts:108-127 | A file's statements and its row take effect together or not at all, wherever it breaks off. |
| Migrations.RunPending | v3/database/scripts/migrate.ts:96-130 | The loop, with its counts and whether it finished, is the run's specification. |
| Migrations.RunReaches | v3/database/scripts/migrate.ts:99-128 | Every run goes on to the first file where it breaks off, and past it if its COMMIT took effect, and applies, in order, exactly the unrecorded ones on the way; it finishes exactly when it breaks off nowhere. |
| Migrations.EachAtMostOnce | v3/database/scripts/migrate.ts:99-128 | Over any sequence of runs, lists and breaks, what took effect is what is recorded, each migration once. |
| Migrations.FixedFilesInOrder | v3/database/scripts/migrate.ts:88-128 | With a fixed list, what took effect is always a first part of it. |
| Migrations.TreeInOrder | v3/database/scripts/migrate.ts:88-128 | With a fixed tree of files, what took effect is a first part of them by file name and, where names are equal, by schema. |
| Migrations.FinishedRunRecords | v3/database/scripts/migrate.ts:99-130 | A finished run has its whole list recorded, has added exactly the missing ones in order, and counts them right. |
| Migrations.SmoothRunCompletes | v3/database/scripts/migrate.ts:99-130 | However earlier runs of a fixed list broke off, one undisturbed run finishes with exactly that list executed in its order, having skipped what was there and applied the rest. |
| Migrations.RerunAppliesNothing | v3/database/scripts/migrate.ts:99-128 | Running again after a finished run changes nothing, and skips everything exactly when no check breaks off. |
| Migrations.Database.Record | v3/database/scripts/migrate.ts:66-71 | The primary key refuses a row that is there already. |
| MigrationRace.EachAtMostOnceInARace | v3/database/scripts/migrate.ts:66-128 | The same for any number of runners whose statements interleave in any way. |
| MigrationRace.AcceptIsNext | v3/database/scripts/migrate.ts:108-121 | Of runners of one list, only one at the first unrecorded file can commit. |
| MigrationRace.RaceInOrder | v3/database/scripts/migrate.ts:66-128 | Runners of one list still execute a first part of it, in its order. |
| MigrationRace.RunnerAloneFinishes | v3/database/scripts/migrate.ts:99-128 | From any state of a race a runner that nobody holds up can finish, and then its whole list is recorded. |
| SlotGroups.GroupSlotsByDay | v3/apps/web/lib/booking-api.ts:320-352 | The loop over the slots and the two sorts give the groups of the specification. |
| SlotGroups.SortedPartition | v3/apps/web/lib/booking-api.ts:320-352 | Day keys strictly ascend, every group holds exactly the slots of its day by start, its date is its first arrival's, and nothing is lost or doubled. |
| SlotGroups.PanelIsChronological | v3/apps/web/lib/booking-api.ts:335-344 | The groups one after the other are the slots by start, those of equal start as they came, exactly when no later start has an earlier day. |
| SlotGroups.InTimeIsSorted | v3/apps/web/lib/booking-api.ts:335-351 | Sorting by start is the one list that is ordered by start and keeps slots of equal start as they came. |
| Grouping.SortedExactlyWhenKeysFollow | v3/apps/web/lib/booking-api.ts:335-351 | The same for lists grouped by any key. |
| Sorting.SortStable | v3/apps/web/lib/booking-api.ts:345-351 | Sorting keeps elements that compare alike in their order. |
| Sorting.StableUnique | v3/apps/web/lib/booking-api.ts:345-351 | Order, and the order within elements that compare alike, determine the list. |
| RestoreCheck.CompareInventory | v3/database/scripts/backup-restore.ts:495-507 | The two loops give the differences of the specification, in order. |
| RestoreCheck.ReportsExactlyTheWrongTables | v3/database/scripts/backup-restore.ts:495-507 | Every missing, extra or wrongly counted table is reported as it is, and nothing else is. |
| RestoreCheck.ReportsTablesOnce | v3/database/scripts/backup-restore.ts:495-507 | No table is reported twice. |
| RestoreCheck.SilentExactlyWhenEqual | v3/database/scripts/backup-restore.ts:495-507 | Nothing is reported exactly when both sides have the same tables and counts. |
| RestoreCheck.CompareStructure | v3/database/scripts/backup-restore.ts:527-558 | The loops over lists and sequences give the differences of the specification, in order. |
| RestoreCheck.ReportsExactlyWhatDiffers | v3/database/scripts/backup-restore.ts:527-558 | Every missing, extra or wrong-valued object is reported as such, and nothing else is. |
| RestoreCheck.ReportsObjectsOnce | v3/database/scripts/backup-restore.ts:527-558 | When no list of names repeats itself, no object is reported twice. |
| RestoreCheck.SilentExactlyWhenSame | v3/database/scripts/backup-restore.ts:527-558 | Nothing is reported exactly when index, constraint and view names are the same sets and sequences have the same values. |

## Left out

- Jalali.JalaliThereAndBack: years outside -61..3177, where the code has no guard; `BeforeTheTable` shows that the claims fail there.
- Jalali.GregorianThereAndBack: numbers are unbounded integers; every value in the span is far inside what a double holds exactly, and the sign of a zero is not kept.
- DateInput.EmittedDateIsReadBack: `Number` is modelled on strings of digits and the empty string; signs, blanks, exponents and hexadecimal spellings count as not a number, and none of them is ever emitted. A stored value with fewer than three parts is only marked as broken.
- DateInput: the day shown when no value is stored comes from the clock.
- AuthSession.AnsweredRefreshesNeverReplay: logging out, OTP verification, the server's check of the CSRF token, several tabs on one cookie, token expiry, and an answer whose cookie the browser still takes after the attempt was given up are not part of the model.
- AuthSession.EveryCallRetriesOnce: response bodies and the `onForbidden` callback are left out; a call's outcome is a 401 or not.
- AuthSession: restoring the session on start is one more caller of the refresh; the status it sets is left out, as is the delay before a replay counts as one, which is a choice of the server in every step.
- ChatThread.PollAsksAgain: the summary's contents, a conversation that is gone or withdrawn, and leaving the page are left out; a poll that fails changes nothing.
- ChatThread.ThreadShowsLog: the log only grows; the service also erases message bodies in place (v3/services/chat/src/chat-subject-data.contract.ts:161), and a thread keeps the body it has shown until the message comes in a later page.
- ChatThread: a second load of the same conversation while the first is under way, as React's development mode makes it.
- SettlementSeries.DrawnIsLatest: the sections without a request number (summary, funds, orders, settlements) are left out but for their refusals, which may come at any time for any workspace asked about; so are a failed listing, which replaces the whole page, and an empty workspace reference.
- PollLoop.LoopNeverDies: the unread counter is a second user of the same loop; a change of interval is a clean-up followed by a new mount.
- Migrations.ApplyFile: a migration is assumed to be transactional, as PostgreSQL's DDL is; statements that commit on their own, the connection for each schema, and editing a file that was applied are left out.
- MigrationRace.RaceInOrder: runners see committed rows, and an insert waits for another open transaction with the same row, as at PostgreSQL's default isolation level; waiting on other locks only delays a step.
- SlotGroups.SortedPartition: `zonedIsoDate` is any function of the instant's text, `localeCompare` any total preorder (any total order for the chronological claim), and an instant that is not a date is left out.
- RestoreCheck.CompareInventory: keys that plain objects inherit, such as `constructor`, are taken as absent; details of a structure difference are values rather than text.
- The domain services, the database's own contents, and everything that only draws.
