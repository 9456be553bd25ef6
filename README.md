# Finance dashboard core, modelled in Dafny

This project models the logic of a finance dashboard with push-to-talk voice
input.

- **Voice input.** The voice button assembles speech-recognition results into a transcript. A silence timer submits the transcript automatically, and every handler keeps the component state consistent. A space-bar hook starts and stops dictation from the keyboard. Spoken text is formatted and classified.
- **Finance data.** The mock finance data layer offers transactions, budgets, the category filters and sums, the per-category spending breakdown and the most-recent-first listing. The budget store edits limits in place and resets its list.
- **Assistant tools.** The tool bodies that report budget status and a financial summary, generate spending insights and update a limit are modelled.
- **Dashboard cards.** The budget tracker, spending chart and transaction list cards compute numbers and lists from their props; that computation is modelled.

Code that updates state in place becomes classes with `modifies` clauses:

- the voice button (`VoiceButton.Component`);
- the key hook (`SpaceBarVoice.Hook`);
- budget objects (`MockData.BudgetCell`);
- the data module's `budgets` binding (`MockData.FinanceData`);
- the store (`BudgetStore.Store`);
- the list's `displayCount` (`TransactionList.ListView`).

Budget objects are shared between the data module, the store and the update tool. They are modelled as shared `BudgetCell` objects, so an update through one is seen through the others.

The per-category group-by, the transcript loop and the insight loops are methods with loop invariants. Each is proved equal to a specification function, and the specification functions carry their own lemmas. Queries that only compute are functions, with lemmas about them.

Amounts are exact reals. Dates are day numbers: an ISO `YYYY-MM-DD` string compares like its day number, and a date that does not parse is `None`. Division by a possibly-zero limit yields JavaScript's infinities and NaN (`JsNumbers.Ratio`).

Browser services become parameters or explicit methods:

- A microphone permission result is a `permissionGranted` argument.
- Engine support is a constructor argument.
- A thrown `onStart` is a `startThrows` argument.
- The focused element is an `Option<Element>`.
- Each timer firing is a method call.

Behaviour of the code the model keeps:

- **`Processing` state.** `processing` is declared but never entered (VoiceButton.tsx:11), so `Valid()` excludes it.
- **Permission refused.** A refused microphone permission sets the permission error and leaves `state` unchanged (VoiceButton.tsx:124-127).
- **Stop during a permission request.** `handleStart` awaits the permission request and then starts the engine without looking at the state again (VoiceButton.tsx:113-123). A stop that runs while the request is pending therefore does not prevent the later grant from starting a session; `HandleStart` acts on the settled result.
- **`disabled` flag.** Only the click handler honours `disabled`. The imperative `handleStart` used by the keyboard does not.
- **Error message on show.** The button is disabled while an error message is on show (`VoiceButton.Component.ButtonClick`).
- **Error timers after cleanup.** The 3000 ms error-clearing timers are not cancelled by the effect's cleanup; `errorClearsPending` survives `Cleanup`.
- **`resetBudgets`.** It copies the list shallowly, so edited limits survive a reset (`BudgetStore.UpdateThenReset`).

## Model

| member | source | states |
|---|---|---|
| VoiceButton.Window | src/components/VoiceButton.tsx:50 | the results an event visits run from `resultIndex` to the end, and none when the index is past the end |
| VoiceButton.FinalText | src/components/VoiceButton.tsx:48-56 | `finalTranscript`: the final pieces in index order, each followed by a space; its properties are FinalTextNonEmptyIff, TextsAppend and FinalTextIgnoresInterim |
| VoiceButton.InterimText | src/components/VoiceButton.tsx:47-56 | `interimTranscript`: the interim pieces in index order with no separator; its properties are TextsAppend and InterimTextIgnoresFinal |
| VoiceButton.CurrentTranscript | src/components/VoiceButton.tsx:59 | the final text, or the interim text when it is empty: the text OnResult shows |
| VoiceButton.TextToSubmit | src/components/VoiceButton.tsx:149 | `finalText`, or the transcript when it is empty; Submission and SubmissionPrefersFinalText state what is submitted from it |
| VoiceButton.AssembleTranscript | src/components/VoiceButton.tsx:46-57 | the loop yields the final text (final pieces in index order, each followed by a space) and the interim text; the final text is non-empty exactly when some visited result is final |
| VoiceButton.FinalTextNonEmptyIff | src/components/VoiceButton.tsx:52-63 | the final text is non-empty if and only if some result is final |
| VoiceButton.TextsAppend | src/components/VoiceButton.tsx:50-57 | both texts of two runs of results are the first run's text followed by the second's, so pieces keep index order |
| VoiceButton.FinalTextIgnoresInterim | src/components/VoiceButton.tsx:52-56 | the final text depends only on the final results |
| VoiceButton.InterimTextIgnoresFinal | src/components/VoiceButton.tsx:52-56 | the interim text depends only on the interim results |
| VoiceButton.Submission | src/components/VoiceButton.tsx:149-157 | something is submitted exactly when the chosen text is not all whitespace, and it is that text trimmed, non-empty and already trimmed |
| VoiceButton.SubmissionPrefersFinalText | src/components/VoiceButton.tsx:149 | a non-empty `finalText` makes the transcript irrelevant |
| VoiceButton.EngineErrorText | src/components/VoiceButton.tsx:84-90 | `no-speech`, `not-allowed` and every other code get their own message |
| VoiceButton.ErrorMessagesDistinct | src/components/VoiceButton.tsx:84-90 | the three engine messages differ from each other and from the empty-transcript message |
| VoiceButton.Component.constructor | src/components/VoiceButton.tsx:33-38 | idle with no transcript; without engine support the unsupported-browser error is shown |
| VoiceButton.Component.OnResult | src/components/VoiceButton.tsx:46-74 | the transcript becomes the final text or else the interim text; the silence timer is replaced by one holding the final text exactly when there is final text, and is otherwise kept; nothing else changes |
| VoiceButton.Component.FireSilenceTimer | src/components/VoiceButton.tsx:68-72 | the slot empties; a captured text that is not blank is stopped with and submitted trimmed, and a blank one changes nothing else |
| VoiceButton.Component.OnError | src/components/VoiceButton.tsx:76-93 | every code ends idle; `aborted` sets no error, any other code shows its message and schedules one error clear |
| VoiceButton.Component.OnEnd | src/components/VoiceButton.tsx:95-99 | the component is idle and the engine stopped |
| VoiceButton.Component.HandleStart | src/components/VoiceButton.tsx:113-128 | `StartOutcome`: a grant with an engine clears text and error and starts listening; a grant without one changes nothing; a refusal shows the permission error, schedules its clear and leaves the session as it was; timer and submissions untouched |
| VoiceButton.Component.HandleStop | src/components/VoiceButton.tsx:130-163 | `StopOutcome`: always idle, engine stopped, timer slot empty and transcript cleared; the trimmed text is submitted once when non-empty, otherwise the no-speech error is shown and its clear scheduled, with nothing submitted |
| VoiceButton.Component.HandleClick | src/components/VoiceButton.tsx:165-173 | disabled leaves every field unchanged; listening gives `handleStop`'s whole outcome with the transcript as final text, including the no-speech error for a blank one; otherwise `handleStart`'s whole outcome |
| VoiceButton.Component.ButtonClick | src/components/VoiceButton.tsx:185-187 | a click while disabled or while an error is shown leaves every field unchanged; an enabled click has `handleClick`'s outcome, stopping when listening and starting otherwise |
| VoiceButton.Component.HandleStopFromRef | src/components/VoiceButton.tsx:176-179 | the exposed stop has `handleStop`'s whole outcome with the current transcript: idle and cleared, then the trimmed transcript submitted, or the no-speech error and its scheduled clear when it is blank |
| VoiceButton.Component.FireErrorClear | src/components/VoiceButton.tsx:92 | a pending error clear removes whatever error is shown |
| VoiceButton.Component.Cleanup | src/components/VoiceButton.tsx:103-110 | the engine is stopped and the silence timer cancelled |
| SpaceBarVoice.Hook.constructor | src/hooks/useSpaceBarVoice.ts:14-18 | listeners attached, both flags clear, no calls yet |
| SpaceBarVoice.Hook.HandleKeyDown | src/hooks/useSpaceBarVoice.ts:18-70 | other keys and keys typed in a text field change nothing and are not suppressed; a repeat is suppressed without a second `onStart`; a first press calls `onStart` once and sets both flags, which a throwing `onStart` resets; the flags stay equal |
| SpaceBarVoice.Hook.HandleKeyUp | src/hooks/useSpaceBarVoice.ts:72-114 | other keys, an inactive hook or focus in a text field change nothing; otherwise both flags reset and `onStop` is called once; `onStop` calls never exceed `onStart` calls |
| SpaceBarVoice.Hook.Teardown | src/hooks/useSpaceBarVoice.ts:120-127 | the listeners go and both flags are reset |
| SpaceBarVoice.Hook.Attach | src/hooks/useSpaceBarVoice.ts:117-118 | the listeners are registered again with the invariant kept |
| SpaceBarVoice.PressAndHold | src/hooks/useSpaceBarVoice.ts:41-64 | a press held through any number of repeats and released calls `onStart` once and `onStop` once and suppresses every event |
| SpaceBarVoice.TypeSpacesInTextField | src/hooks/useSpaceBarVoice.ts:28-38 | spaces typed in an input, textarea or editable element never start voice input and are never suppressed |
| VoiceUtils.FormatTranscript | src/lib/voiceUtils.ts:36-51 | the empty text stays empty; the result is the trimmed text with only its first character upper-cased |
| VoiceUtils.FormatTranscriptIdempotent | src/lib/voiceUtils.ts:40-45 | formatting twice is formatting once |
| VoiceUtils.DetectCommandType | src/lib/voiceUtils.ts:54-69 | action exactly when the lower-cased text starts with an action keyword; query exactly when it does not but starts with a query keyword; unknown otherwise |
| VoiceUtils.DetectCommandTypeIgnoresCase | src/lib/voiceUtils.ts:55 | texts equal up to case get the same type |
| VoiceUtils.DetectCommandTypeByPrefix | src/lib/voiceUtils.ts:60-66 | the match is by prefix: extending a classified text keeps its type |
| VoiceUtils.PrefixesCompose | src/lib/voiceUtils.ts:60 | a text that starts with a keyword still does when extended |
| VoiceUtils.KeywordsDisjoint | src/lib/voiceUtils.ts:57-58 | no action keyword shares its first two letters with a query keyword |
| VoiceUtils.PrefixesDecide | src/lib/voiceUtils.ts:57-66 | text that starts with a query keyword never starts with an action keyword |
| VoiceUtils.ErrorCode | src/lib/voiceUtils.ts:80 | a missing or empty code reads as `unknown`, any other is kept |
| VoiceUtils.GetVoiceErrorMessage | src/lib/voiceUtils.ts:79-115 | `not-allowed` and `permission-denied` give `permission-denied`; exactly those two and `audio-capture` cannot be retried; every unlisted code gives the retryable `unknown` record |
| VoiceUtils.GetVoiceErrorMessageDefaults | src/lib/voiceUtils.ts:80-89 | a missing error gives the retryable `unknown` record; the two permission codes give the same record |
| JsStrings.TrimStart | src/lib/voiceUtils.ts:40 | the result starts with no whitespace |
| JsStrings.TrimStartShape | src/lib/voiceUtils.ts:40 | the result is a suffix of the input, and only whitespace is removed |
| JsStrings.TrimEnd | src/lib/voiceUtils.ts:40 | the result ends with no whitespace |
| JsStrings.TrimEndShape | src/lib/voiceUtils.ts:40 | the result is a prefix of the input, and only whitespace is removed |
| JsStrings.Trim | src/lib/voiceUtils.ts:40 | the result has no whitespace at either end and is no longer than the input |
| JsStrings.TrimIsInfix | src/lib/voiceUtils.ts:40 | the trimmed text is the input with whitespace removed from both ends only |
| JsStrings.TrimOfTrimmed | src/lib/voiceUtils.ts:40 | trimming a trimmed text changes nothing |
| JsStrings.TrimIdempotent | src/components/VoiceButton.tsx:69-70 | trimming twice is trimming once |
| JsStrings.TrimEmptyIffAllWhitespace | src/components/VoiceButton.tsx:69 | the trimmed text is empty if and only if the text is all whitespace |
| JsStrings.UpperChar | src/lib/voiceUtils.ts:44 | lower-case ASCII letters become upper case, everything else is kept |
| JsStrings.Lower | src/lib/voiceUtils.ts:55 | same length, each character lower-cased |
| JsStrings.LowerIdempotent | src/lib/budgetStore.ts:8 | lower-casing twice is lower-casing once |
| JsStrings.IsWhitespace | src/lib/voiceUtils.ts:40 | the WhiteSpace and LineTerminator characters `trim` removes; TrimStartShape, TrimEndShape and TrimEmptyIffAllWhitespace are stated over it |
| JsStrings.LowerChar | src/lib/budgetStore.ts:8 | an upper-case ASCII letter becomes its lower-case letter and every other character is kept |
| Seqs.FilterMembers | src/lib/mockData.ts:266 | `filter` keeps exactly the elements that pass |
| Seqs.Filter | src/lib/mockData.ts:266 | `filter`, no longer than its input; its content is FilterMembers, FilterIsSubseq, FilterMultiplicity and FilterEmpty |
| Seqs.SumBy | src/lib/mockData.ts:319-321 | `reduce((sum, x) => sum + f(x), 0)`; MockData.IncomeExpenseSum and SpendingChart.TotalPositive state what the sums add up to |
| Seqs.FilterEmpty | src/components/SpendingChart.tsx:61 | `filter` returns nothing exactly when no element passes |
| Seqs.FilterIsSubseq | src/lib/mockData.ts:266 | `filter` keeps the original order |
| Seqs.FilterMultiplicity | src/lib/mockData.ts:266 | each passing element is kept as often as it occurs, each failing one never |
| Seqs.SliceEnd | src/lib/mockData.ts:333 | `slice(0, end)` stops at `end` clamped to the length, counting a negative end back from the length |
| Seqs.Take | src/lib/mockData.ts:333 | `slice(0, end)` is a prefix of the input of length `min(end, n)` for a non-negative end |
| Seqs.FindIndex | src/lib/mockData.ts:257 | `find` stops at the first passing element, and finds none exactly when none passes |
| JsNumbers.Divide | src/components/BudgetTracker.tsx:29 | a finite quotient exactly when the divisor is not zero; otherwise +Infinity, -Infinity or NaN by the sign of the dividend |
| JsNumbers.Scale | src/components/BudgetTracker.tsx:29 | multiplying by 100 keeps infinities and NaN and scales finite values |
| JsNumbers.Min | src/components/BudgetTracker.tsx:60 | `Math.min` keeps NaN, turns +Infinity into the cap and never exceeds the cap |
| MockData.ColorForKnown | src/lib/mockData.ts:42-52 | a category has a colour of its own exactly when it is one of the fixed categories |
| MockData.ColorFor | src/lib/mockData.ts:314 | the category's entry in `CATEGORY_COLORS`, or `#9CA3AF`; ColorForKnown says which names have their own colour |
| MockData.Transactions | src/lib/mockData.ts:63-196 | the mock transactions, dated relative to `today`; TransactionList.CategoryStylesOfData is stated about them |
| MockData.InitialBudgets | src/lib/mockData.ts:198-225 | the six declared budgets, with `spent` at 0 before it is filled in |
| MockData.CalculateCategorySpending | src/lib/mockData.ts:281-295 | the category's transactions, then its expenses, then those in the range, summed; CalculateCategorySpendingIsTotal equates it with CategoryTotal |
| MockData.CategoryTotal | src/lib/mockData.ts:281-295 | the independent one-pass definition of a category's spending in a range |
| MockData.TotalIncome | src/lib/mockData.ts:318-322 | `getTotalIncome`; IncomeExpenseSum and IncomeExpenseDisjoint relate it to the expenses |
| MockData.TotalExpenses | src/lib/mockData.ts:324-328 | `getTotalExpenses`; SpendingSumsToTotalExpenses relates it to the breakdown |
| MockData.SpendingByCategory | src/lib/mockData.ts:297-316 | the breakdown `getSpendingByCategory` returns; GetSpendingByCategory computes it and SpendingByCategoryDistinct, Covers, OnlyExpenses and Values state its content |
| MockData.SpentFor | src/lib/mockData.ts:257-260 | the `find` of a category's entry; SpentForSpending states its value |
| MockData.RecentTransactions | src/lib/mockData.ts:330-334 | `getRecentTransactions(limit)`; RecentTransactionsCorrect states its content |
| MockData.TransactionsByCategory | src/lib/mockData.ts:265-267 | the result is no longer than the input |
| MockData.TransactionsByCategoryExact | src/lib/mockData.ts:265-267 | exactly the transactions of that category, each as often as in the input, in input order |
| MockData.TransactionsByDateRange | src/lib/mockData.ts:269-279 | the result is no longer than the input |
| MockData.TransactionsByDateRangeExact | src/lib/mockData.ts:269-279 | exactly the transactions dated from start to end inclusive, in input order; an unparsable end keeps none |
| MockData.CategoryExpensesSnoc | src/lib/mockData.ts:285-287 | one more transaction joins a category's expenses exactly when it is an expense of that category |
| MockData.WithinRangeSnoc | src/lib/mockData.ts:288-293 | one more transaction passes the range step exactly when there is no range or it lies in it |
| MockData.CalculateCategorySpendingIsTotal | src/lib/mockData.ts:281-295 | the filter pipeline sums exactly the category's expenses within the range, as one pass would |
| MockData.CategorySpendingAppend | src/lib/mockData.ts:285-294 | one more transaction adds its amount exactly when it counts, so income never adds anything |
| MockData.IncomeExpenseSum | src/lib/mockData.ts:318-328 | total income plus total expenses is the sum of all amounts |
| MockData.IncomeExpenseDisjoint | src/lib/mockData.ts:318-328 | every transaction is counted in exactly one of the two sums |
| MockData.DistinctCategoriesExact | src/lib/mockData.ts:302-311 | the map's keys come out once each, and exactly the categories that occur |
| MockData.SumCatAbsent | src/lib/mockData.ts:307 | a category that does not occur sums to zero |
| MockData.Entries | src/lib/mockData.ts:311-315 | one entry per map key |
| MockData.GetSpendingByCategory | src/lib/mockData.ts:297-316 | the map-building loop and the entry loop give exactly the specified breakdown |
| MockData.SumCatIsCategorySpending | src/lib/mockData.ts:304-309 | each map value equals `calculateCategorySpending` for that category with no range |
| MockData.SumCatSnoc | src/lib/mockData.ts:306-309 | one more expense adds its amount to its own category only |
| MockData.SumCatIsTotal | src/lib/mockData.ts:304-309 | a map value is the one-pass category total |
| MockData.SpendingByCategoryDistinct | src/lib/mockData.ts:302-311 | no two entries share a name |
| MockData.SpendingByCategoryCovers | src/lib/mockData.ts:304-311 | every expense's category has an entry |
| MockData.SpendingByCategoryOnlyExpenses | src/lib/mockData.ts:304-311 | every entry names a category that has an expense |
| MockData.SpendingByCategoryValues | src/lib/mockData.ts:311-315 | each entry's value is its category's spending and its colour the category colour or `#9CA3AF` |
| MockData.EntriesSumSnoc | src/lib/mockData.ts:306-309 | one more expense adds its amount to the entries' total |
| MockData.DistinctEntriesSum | src/lib/mockData.ts:304-315 | the entries of all categories add up to all the amounts |
| MockData.SpendingSumsToTotalExpenses | src/lib/mockData.ts:297-328 | the breakdown's values add up to `getTotalExpenses` |
| MockData.WithSpending | src/lib/mockData.ts:256-262 | one budget out per budget in |
| MockData.SpentForSpending | src/lib/mockData.ts:257-260 | looking a category up in the breakdown gives its spending, or 0 when it has no entry |
| MockData.WithSpendingExact | src/lib/mockData.ts:254-263 | each budget keeps its position, category, limit and colour, and `spent` becomes its category's spending |
| MockData.WithSpendingIdempotent | src/lib/mockData.ts:256-262 | filling in the spending twice is filling it in once |
| MockData.InsertByDate | src/lib/mockData.ts:332 | inserting adds exactly one element |
| MockData.SortByDateDesc | src/lib/mockData.ts:331-332 | the sorted copy has the input's length |
| MockData.InsertByDatePermutes | src/lib/mockData.ts:332 | inserting adds the element and removes nothing |
| MockData.InsertByDateSorted | src/lib/mockData.ts:332 | inserting into a sorted list keeps it sorted |
| MockData.SortByDateDescCorrect | src/lib/mockData.ts:331-332 | the copy is most recent first and a permutation of the input |
| MockData.RecentTransactionsCorrect | src/lib/mockData.ts:330-334 | the first `min(limit, n)` of the sorted permutation, so nothing left out is more recent than anything kept |
| MockData.BudgetCell.constructor | src/lib/mockData.ts:198-225 | a budget object holding the declared budget |
| MockData.Values | src/lib/mockData.ts:256 | one budget value per object, in order |
| MockData.FinanceData.constructor | src/lib/mockData.ts:336-337 | after loading, the budgets are the declared ones with their spending filled in, as new objects |
| MockData.FinanceData.InitializeBudgets | src/lib/mockData.ts:254-263 | `budgets` becomes new objects, with the old values and their spending filled in |
| BudgetStore.SameCategoryIgnoresCase | src/lib/budgetStore.ts:8 | the category match ignores case on either side and is symmetric |
| BudgetStore.Store.constructor | src/lib/budgetStore.ts:3 | the store's list holds the data module's budget objects |
| BudgetStore.Store.GetBudgets | src/lib/budgetStore.ts:5 | returns the current list itself |
| BudgetStore.Store.UpdateBudgetLimit | src/lib/budgetStore.ts:7-13 | the first case-insensitive match gets the new limit; no other object changes, the list is unchanged and returned |
| BudgetStore.Store.ResetBudgets | src/lib/budgetStore.ts:15-18 | the list is the data module's objects again, with the values those objects held |
| BudgetStore.UpdateThenReset | src/lib/budgetStore.ts:7-18 | a limit set by an update is still there after a reset |
| TamboTools.GetBudgetStatus | src/lib/tambo.ts:128-137 | the budgets with `spent` filled in from the spending breakdown |
| TamboTools.FinancialSummary | src/lib/tambo.ts:139-148 | income, expenses and their difference; NetSavingsIsBalance states the balance |
| TamboTools.SpendingInsights | src/lib/tambo.ts:238-273 | the insights the tool returns; GenerateSpendingInsights computes them and InsightsOrdered, InsightFigures and WarningCount state their content |
| TamboTools.NetSavingsIsBalance | src/lib/tambo.ts:139-148 | net savings are income minus expenses, the signed sum of all transactions |
| TamboTools.OverInsights | src/lib/tambo.ts:243-250 | one insight per over-budget warning |
| TamboTools.NearInsights | src/lib/tambo.ts:253-260 | one insight per near-limit warning |
| TamboTools.GenerateSpendingInsights | src/lib/tambo.ts:238-273 | the tool returns the insights specified for the filled-in budget status and the financial summary |
| TamboTools.CollectInsights | src/lib/tambo.ts:242-272 | the two loops and the final test produce over-budget insights, then near-limit insights, then "Net Positive" exactly when income exceeds expenses |
| TamboTools.WarningCount | src/lib/tambo.ts:242-260 | with limits that are not negative: no budget is both over and near its limit, and the warnings are as many as the budgets past 85% of their limit |
| TamboTools.InsightPositions | src/lib/tambo.ts:239-272 | over-budget insights take the first places, near-limit ones the next, and the positive success insight, if any, the last |
| TamboTools.InsightsOrdered | src/lib/tambo.ts:239-272 | insights come in rank order; the success insight is last, positive and present exactly when income exceeds expenses |
| TamboTools.InsightFigures | src/lib/tambo.ts:242-260 | over-budget excesses are positive; near-limit percentages are finite, above 85 and at most 100, with a remainder that is not negative |
| TamboTools.NearPercent | src/lib/tambo.ts:252-256 | a near-limit budget has a positive limit and a percentage above 85 and at most 100 |
| TamboTools.UpdateBudgetLimitTool | src/lib/tambo.ts:279-286 | the first exact, case-sensitive match gets the new limit and is returned; without one the result is "not found" and nothing changes |
| TamboTools.ExactMatchFoundIgnoringCase | src/lib/tambo.ts:280 | where the tool finds a budget, the store finds it or an earlier one equal up to case |
| TamboTools.ToolUpdateSeenByStore | src/lib/tambo.ts:280-283 | a limit set by the tool is what the store lists next |
| BudgetTracker.GetStatusPositiveLimit | src/components/BudgetTracker.tsx:28-33 | critical exactly above 90% of the limit, warning above 70% up to 90%, good at most 70% |
| BudgetTracker.GetStatus | src/components/BudgetTracker.tsx:28-33 | `getStatus`; GetStatusPositiveLimit, GetStatusZeroLimit, OverBudgetIsCritical and NegativeLimitShowsGood state its outcome |
| BudgetTracker.BarPercent | src/components/BudgetTracker.tsx:60 | a budget's bar width; BarPercentBounded states its bound |
| BudgetTracker.TotalPercentage | src/components/BudgetTracker.tsx:24-26 | the overall bar width; TotalPercentageBounded states its bound |
| BudgetTracker.RemainingLabel | src/components/BudgetTracker.tsx:61-99 | the remaining amount and whether it reads "over"; RemainingLabelCorrect states both |
| BudgetTracker.StatusLabel | src/components/BudgetTracker.tsx:79 | the badge text; StatusLabelDistinct states it |
| BudgetTracker.ShareAbove | src/components/BudgetTracker.tsx:29 | the percentage passes a threshold exactly when the amount spent passes that share of the limit |
| BudgetTracker.GetStatusZeroLimit | src/components/BudgetTracker.tsx:28-33 | with a zero limit, critical exactly when anything is spent and never a warning |
| BudgetTracker.BarPercentBounded | src/components/BudgetTracker.tsx:60 | the bar is never above 100; with a positive limit it is the spent share capped at 100 |
| BudgetTracker.TotalSpentWithinBudget | src/components/BudgetTracker.tsx:24-25 | with no budget over its limit, the total spent is at most the total budget |
| BudgetTracker.TotalPercentageBounded | src/components/BudgetTracker.tsx:24-26 | the overall bar is never above 100, and it is the uncapped share when nothing is over budget |
| BudgetTracker.RemainingLabelCorrect | src/components/BudgetTracker.tsx:98-99 | the amount shown is never negative, reads "over" exactly when the spending exceeds the limit, and gives back spent and limit |
| BudgetTracker.StatusLabelDistinct | src/components/BudgetTracker.tsx:79 | "On Track" exactly for good, and the three labels differ |
| BudgetTracker.OverBudgetIsCritical | src/components/BudgetTracker.tsx:28-33 | with a limit that is not negative: a budget over its limit is critical, and one past 85% of its limit is not good |
| BudgetTracker.NegativeLimitShowsGood | src/components/BudgetTracker.tsx:28-33 | with a negative limit and nothing negative spent, the budget is over its limit yet shows as good, because the percentage is not positive |
| SpendingChart.ValidDataEmpty | src/components/SpendingChart.tsx:52-62 | missing or empty data, or data with no positive number, gives nothing to draw |
| SpendingChart.Sanitize | src/components/SpendingChart.tsx:57-61 | one point with `Unknown`, 0 and `#FF6B35` for a missing name, number and colour |
| SpendingChart.Sanitized | src/components/SpendingChart.tsx:57-61 | every input point sanitised, in order |
| SpendingChart.ValidData | src/components/SpendingChart.tsx:52-62 | `validData`; ValidDataEmpty, ValidDataMembers and ValidDataMultiplicity state its content |
| SpendingChart.Total | src/components/SpendingChart.tsx:64 | `total`; TotalPositive and TotalAtMostCountTimesHighest bound it |
| SpendingChart.Average | src/components/SpendingChart.tsx:65 | `average`; AverageAtMostHighest and AveragePositive bound it |
| SpendingChart.GetSubtitle | src/components/SpendingChart.tsx:68-72 | `getSubtitle`; GetSubtitleCases states its cases |
| SpendingChart.ValidDataMembers | src/components/SpendingChart.tsx:57-61 | kept points have positive values and non-empty names and colours, keep input order, and include every positive number |
| SpendingChart.ValidDataMultiplicity | src/components/SpendingChart.tsx:57-61 | each positive sanitised point is kept exactly as many times as it occurs |
| SpendingChart.Highest | src/components/SpendingChart.tsx:66 | the highest value is at least 0 and at least every value |
| SpendingChart.HighestIsAValue | src/components/SpendingChart.tsx:66 | with any points, the highest value is one of them |
| SpendingChart.TotalAtMostCountTimesHighest | src/components/SpendingChart.tsx:64-66 | the total is at most the count times the highest value |
| SpendingChart.AverageAtMostHighest | src/components/SpendingChart.tsx:64-66 | the average never exceeds the highest value |
| SpendingChart.AveragePositive | src/components/SpendingChart.tsx:64-65 | for positive points, the average is positive exactly when there are points |
| SpendingChart.TotalPositive | src/components/SpendingChart.tsx:64 | positive points have a positive total |
| SpendingChart.GetSubtitleCases | src/components/SpendingChart.tsx:68-72 | the three subtitles differ, and every type other than bar and line gets the breakdown subtitle |
| TransactionList.StylesDifferFromDefault | src/components/TransactionList.tsx:24-34 | no category's own style is empty or the default style |
| TransactionList.GetCategoryStyle | src/components/TransactionList.tsx:23-35 | `getCategoryStyle`; GetCategoryStyleCases states its cases |
| TransactionList.Visible | src/components/TransactionList.tsx:47-50 | `visibleTransactions`; VisibleCorrect and LoadMoreExtends state its content |
| TransactionList.HasMore | src/components/TransactionList.tsx:51 | `hasMore`; VisibleCorrect states when it holds |
| TransactionList.Render | src/components/TransactionList.tsx:65-170 | the rendered card; RenderCorrect states its content |
| TransactionList.GetCategoryStyleCases | src/components/TransactionList.tsx:23-35 | the default style exactly for names without a style of their own; the mapped style otherwise |
| TransactionList.CategoryStylesOfData | src/components/TransactionList.tsx:23-35 | every category of the mock transactions except `Rent` has a style of its own, and income looks like groceries |
| TransactionList.VisibleCorrect | src/components/TransactionList.tsx:46-51 | the rows are a sorted prefix of the date-descending copy, `min(count, n)` long, and "load more" shows exactly when rows are left out; a negative count always shows it |
| TransactionList.LoadMoreExtends | src/components/TransactionList.tsx:50-51 | ten more rows keep the rows shown on top, and more appear while any are left |
| TransactionList.RenderCorrect | src/components/TransactionList.tsx:65-160 | the header counts all transactions; the empty state exactly when there are none; otherwise one row per visible transaction, with its style and sign, and the button exactly when `count < n` |
| TransactionList.ListView.constructor | src/components/TransactionList.tsx:39-44 | the count starts at `limit`, or 10 when absent |
| TransactionList.ListView.LoadMore | src/components/TransactionList.tsx:163 | the count grows by exactly 10, and the rows shown before stay on top |
| TransactionList.OpenAndLoadMore | src/components/TransactionList.tsx:42-51 | with the default count and one click, the first twenty sorted rows are shown |

## Left out

- Browser services are not modelled: the speech-recognition engine, `getUserMedia`, `isSpeechSupported` and `requestMicPermission`. Their results are arguments instead.
- Timers are explicit firing methods. This covers the silence timer (`FireSilenceTimer`) and the 3000 ms error clears (`FireErrorClear`). Real time, the 2000 ms delay and the `clearTimeout` handles are not modelled.
- React semantics are not modelled: the effect's re-creation on every state change, stale closures, `forwardRef`/`useImperativeHandle` and batched `useState` updates. Each handler sees the current state. `onend` compares the current state, not the one its closure captured.
- HandleStart and OnError: the effect depends on `state` (VoiceButton.tsx:103-111), so in the program every state change runs its cleanup, which stops the engine `handleStart` has just started and cancels any pending silence timer; the model instead keeps `recognizing` true after `HandleStart` and keeps `silenceTimer` after `OnError`.
- Key-event DOM effects are reduced to whether the event is suppressed. This covers `preventDefault`, `stopPropagation`, `blur` and capture-phase registration. An `instanceof` test on the focused element is its tag name.
- The component schemas, tool registration and the chat page are framework wiring. So are the `formatCurrency`, `formatDate` and `cn` helpers. The insight texts and currency strings are not modelled; each insight carries the numbers it shows.
- JsStrings.Lower, JsStrings.LowerChar, JsStrings.UpperChar: case mapping covers ASCII letters only. Unicode case mapping is not modelled.
- TamboTools.FinancialSummary: `savingsRate` is not modelled. It is a floating-point division by income.
- BudgetTracker.OverBudgetIsCritical, TamboTools.WarningCount: stated for limits that are not negative only. The update tool accepts any number as a new limit (tambo.ts:278-282). With a negative limit the card shows `good` while the insights call the budget over (BudgetTracker.NegativeLimitShowsGood).
- TamboTools.GenerateSpendingInsights, TamboTools.CollectInsights: the near-limit percentage is not rounded by `Math.round`. The same holds for the rounded total percentage of the budget tracker.
- Amounts are exact reals, not IEEE doubles. Sums do not round, infinities only arise from division by zero, and signed zeros are not distinguished.
- MockData.SortByDateDesc: dates are day numbers, so the NaN comparator of unparsable dates is not modelled. The copy is sorted stably, as `Array.prototype.sort` does; stability is not stated as a lemma.
- The mock transactions are dated relative to a `today` parameter instead of the clock (`getRelativeDate`). The savings goals are not used by the core.
- MockData.ColorFor: inherited object keys such as `constructor` are not modelled for `CATEGORY_COLORS` or the style table.
- SpendingChart.Sanitize: names and colours that are not strings are not modelled. Numbers are finite reals, with NaN and non-numbers as their own cases.
- Only the new limit of the update tool's result is modelled. The success message with the formatted limit is left out.
- The chart's tooltip, icons and the other components' markup are presentation, as are the insight card and the voice error banner.
