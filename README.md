# FinaFlow generative dashboard — a Dafny model

FinaFlow is a Next.js personal-finance dashboard. Its content is chosen by the user's
*persona*: relaxed, auditor or spender. A persona fixes the active widgets (summary,
transactions, chart, budget, alerts) and the layout. A language model generates the widget
payloads from the ledger. A mock generator and an error fallback build the same payload
record from fixed data.

This project models the logic under that UI. It covers:

- the persona tables and the fixtures;
- the two dashboard synthesizers and the server action that falls back on error;
- the summary-card repair step;
- the zod output validators, as predicates over a JSON value;
- the widget toggle and the settings save transform;
- the configuration provider: shallow merges, the in-place `sort()` inside `hashConfig`, and the load/persist effects;
- the two dashboard hooks, as state machines driven by explicit events;
- the onboarding step machine;
- the pure projections on the dashboard page and in the pie chart;
- the numbered widget list and the count header in the prompts.

Modules follow the source files. `Wrappers`, `JsNumber`, `Json` and `Text` are support
modules:

- `JsNumber` covers the JavaScript number behaviour the code relies on: division by zero yields an infinity or NaN, `Math.round` rounds halves up, comparisons with NaN are false, and `Math.min` propagates NaN.
- `Json` covers JSON values, truthiness, `||`, and property access that throws on `null`.
- `Text` covers `split`/`join`, decimal rendering, ASCII upper-casing and `trim()` emptiness.

Money and percentages are exact reals.

State that the source changes in place is modelled imperatively:

- the configuration object handed to `hashConfig` is a class over two arrays, so the sort really reorders a shared array;
- the provider, the two hooks and the onboarding page are classes whose methods are the effects and event handlers.

The pure parts are functions with lemmas.

Where the documentation and the code disagree, the model follows the code:

- The error fallback's budget percentage is not rounded (`app/actions.tsx:100`), while the mock generator's is (`app/actions-mock.tsx:59`). `Actions.RoundingDisagreement` shows the two differ on the Leisure budget, 1250/3 against 417.
- `activeWidgets.sort()` in `hashConfig` and in `useDashboard` sorts the profile's own array. The array is shared with `widgetOrder` and the persona table. Persisting the auditor fixture therefore puts its widgets in alphabetical order, and the transactions grid moves from first to last (`ConfigContext.PersonaListsSorted`, `ConfigContext.SharedRelaxedArray`).
- The dashboard page renders its panels from fixed content and the fixture ledger. It does not use generated data.

## Model

| member | source | states |
|---|---|---|
| Types.PersonaLabel | types/index.ts:6-10 | every persona has a non-empty label |
| Types.PersonaWidgets | types/index.ts:14-26 | each persona's widget list is non-empty and has no duplicates |
| Types.AuditorSeesEverything | types/index.ts:21 | the auditor list is a duplicate-free list of all five widget types |
| Types.PersonaSuppressions | types/index.ts:15-25 | relaxed omits transactions and alerts; spender omits transactions and chart; exact membership of both lists |
| Types.PersonaLayoutsDistinct | types/index.ts:29-33 | relaxed→grid-2, auditor→grid-3, spender→list, and the layout identifies the persona |
| Types.WidgetNamesDistinct | types/index.ts:42 | widget names are non-empty, differ in their first letter, and contain no comma or newline |
| MockData.MockTransactions | lib/mock-data.ts:47-62 | the ledger fixture has seven transactions |
| MockData.TransactionIdsDistinct | lib/mock-data.ts:47-62 | the fixture ids are pairwise distinct |
| MockData.OnlyIncomeIsPositive | lib/mock-data.ts:47-62 | only the first transaction is positive, exactly the Income one; all others are expenses |
| MockData.BudgetFixtureFacts | lib/mock-data.ts:65-69 | budget categories are distinct; Transport is at 75%, Food at 30%, Leisure over its limit; limits are positive |
| MockData.ProfilesFollowPersonaTables | lib/mock-data.ts:5-37 | both fixture profiles take both widget lists and their layout from the persona tables |
| JsNumber.Divide | app/actions.tsx:100 | the quotient is finite exactly when the divisor is non-zero, and then multiplying it back by the divisor gives the dividend; otherwise it is +∞ or −∞ by the dividend's sign, and NaN for 0/0 |
| JsNumber.Scale | app/actions.tsx:100 | scaling by a positive factor keeps finiteness and sign, dividing the result by the factor gives the input back, and infinities and NaN pass through |
| JsNumber.RoundIsNearest | app/actions-mock.tsx:59 | `Math.round` gives an integer within one half of its argument |
| JsNumber.MinIsBounded | app/page.tsx:115 | `Math.min(x, k)` never exceeds k unless x is NaN, never exceeds x, and stays in [0, k] for x ≥ 0 |
| JsNumber.Abs | components/category-pie-chart.tsx:43 | `Math.abs` is non-negative and is ±v |
| Text.SplitFirstPiece | app/actions-mock.tsx:22 | `split(' ')[0]` is the prefix up to the first space, or the whole string |
| Text.JoinInjective | lib/hooks/use-dashboard-data.ts:41 | joining separator-free parts is injective |
| Text.ParseNatToString | lib/ai/prompts.ts:175 | a rendered number reads back as itself |
| Text.AsciiUpper | lib/ai/prompts.ts:47 | upper-casing keeps the length and maps exactly the lower-case letters |
| Text.BlankExamples | app/onboarding/page.tsx:146 | a name made of U+3000, U+2028, a tab or a no-break space is blank, one with a letter is not |
| Schemas.Slots | app/actions-mock.tsx:16 | a widget type is among the filled slots iff its slot holds a payload |
| Schemas.SentimentFromName | lib/ai/schemas.ts:5 | a sentiment name parses iff it is one of the three, and names back to itself |
| Schemas.CategoryFromName | lib/ai/schemas.ts:21 | a category parses iff it is one of the seven, and names back to itself |
| Schemas.StatusFromName | lib/ai/schemas.ts:22 | a status parses iff it is pending or completed, and names back to itself |
| Schemas.SummaryParseIffValid | lib/ai/schemas.ts:4-13 | the schema `SummaryValid` accepts exactly the values `ParseSummary` turns into a summary record |
| Schemas.SummaryRoundTrip | lib/ai/schemas.ts:4-13 | every summary record encodes to a valid object that parses back to it |
| Schemas.TransactionParseIffValid | lib/ai/schemas.ts:16-23 | the schema `TransactionValid` accepts exactly the values that parse into a transaction row |
| Schemas.TransactionRoundTrip | lib/ai/schemas.ts:16-23 | every transaction row encodes to a valid object that parses back to it |
| Schemas.TransactionsParseIffValid | lib/ai/schemas.ts:27 | an array parses iff every element is a valid transaction, keeping the length |
| Schemas.TransactionListParseIffValid | lib/ai/schemas.ts:26-29 | the schema `TransactionListValid` accepts exactly the values that parse into a list; the empty list is valid |
| Schemas.TransactionsRoundTrip | lib/ai/schemas.ts:26-29 | encoded rows parse back to the same rows in order |
| Schemas.TransactionListRoundTrip | lib/ai/schemas.ts:26-29 | every transaction list encodes to a valid object that parses back to it |
| Schemas.ChartEntriesParseIffValid | lib/ai/schemas.ts:34-37 | chart entries parse iff each has a string name and a numeric value |
| Schemas.PieChartParseIffValid | lib/ai/schemas.ts:32-38 | the schema `PieChartValid` accepts exactly the values that parse into a chart; negative values are accepted |
| Schemas.ChartEntriesRoundTrip | lib/ai/schemas.ts:34-37 | encoded entries parse back to the same entries |
| Schemas.PieChartRoundTrip | lib/ai/schemas.ts:32-38 | every chart encodes to a valid object that parses back to it |
| ActionsMock.FirstFiveRows | app/actions-mock.tsx:29-36 | the first min(5, n) transactions in order, with all fields but `isRecurring` copied |
| ActionsMock.RowsAt | app/actions-mock.tsx:29-36 | the row mapping is pointwise |
| ActionsMock.MockBudgetEntries | app/actions-mock.tsx:55-60 | one entry per budget, in order, copying category, spent and limit |
| ActionsMock.GenerateDashboardMock | app/actions-mock.tsx:16-94 | the filled slots are exactly the active widgets; each slot's payload depends only on the name, the active widgets and the ledger |
| ActionsMock.MockSummaryGreetsByFirstName | app/actions-mock.tsx:19-24 | the message starts with the name's first space-separated word; sentiment warning, total 1265 |
| ActionsMock.MockPercentagesAreRounded | app/actions-mock.tsx:59 | with a non-zero limit each percentage (`MockPercentage`) is an integer within one half of spent/limit·100 |
| ActionsMock.FixtureBudgetPercentages | app/actions-mock.tsx:55-60 | on the fixture budgets the percentages are 75, 30 and 417 (unclamped) |
| ActionsMock.MockFixedPayloads | app/actions-mock.tsx:40-89 | three alerts with ids 1, 2, 3 and severities danger, warning, info; five non-negative chart entries |
| ActionsMock.MockPayloadsPassSchemas | app/actions-mock.tsx:18-50 | the mock summary, transaction list and chart pass their validators |
| Actions.FallbackBudgetEntries | app/actions.tsx:94-103 | one fallback entry per budget, in order, copying category, spent and limit |
| Actions.Fallback | app/actions.tsx:57-126 | the fallback fills exactly the active slots, each with its fixed payload |
| Actions.GenerateDashboard | app/actions.tsx:32-128 | the generator gets the system and user prompts; a produced object is returned unchanged; a throw yields the fallback |
| Actions.FallbackPercentagesExact | app/actions.tsx:100 | the fallback percentage (`FallbackPercentage`) is exactly spent/limit·100, not rounded or clamped; a zero limit gives a non-finite value |
| Actions.FallbackFixedPayloads | app/actions.tsx:60-124 | two alerts with ids 1, 2 and severities danger, warning; four non-negative chart entries; summary warning with total 1265 |
| Actions.RoundingDisagreement | app/actions.tsx:100 | on the Leisure fixture the fallback gives 1250/3 where the mock gives 417 |
| Actions.FallbackPayloadsPassSchemas | app/actions.tsx:60-92 | the fallback summary, transaction list and chart pass their validators |
| Actions.SafeSummaryProps | app/actions.tsx:189-194 | building the safe props throws exactly when the props are null |
| Actions.ShowSummaryCard | app/actions.tsx:183-194 | a non-empty array is replaced by its first element; anything else is used as is |
| Actions.SafePropsDefaults | app/actions.tsx:189-194 | sentiment, title and message are always truthy, a falsy one takes its default, a truthy title is kept, and totalAmount passes through |
| Actions.ValidSummaryRepairedUnchanged | app/actions.tsx:183-194 | a valid summary with non-empty texts passes the repair unchanged, alone or as the first element of an array |
| WidgetSelector.Without | components/settings/widget-selector.tsx:45 | after the filter the widget is absent, every other widget keeps its membership, and the list does not grow |
| WidgetSelector.OfferedTypes | components/settings/widget-selector.tsx:11-37 | the offered types are the options' types in order |
| WidgetSelector.AvailableWidgetsComplete | components/settings/widget-selector.tsx:11-37 | the options offer each of the five widget types exactly once |
| WidgetSelector.ToggleFlipsMembership | components/settings/widget-selector.tsx:44-48 | after `Toggle` the widget is present iff it was absent; others keep their membership; adding appends at the end |
| WidgetSelector.WithoutAbsent | components/settings/widget-selector.tsx:45 | removing an absent widget changes nothing |
| WidgetSelector.WithoutAppend | components/settings/widget-selector.tsx:45 | the filter distributes over concatenation |
| WidgetSelector.ToggleKeepsOrderOfOthers | components/settings/widget-selector.tsx:44-48 | the other widgets keep their relative order |
| WidgetSelector.WithoutKeepsNoDuplicates | components/settings/widget-selector.tsx:45 | removing keeps a list duplicate-free |
| WidgetSelector.ToggleKeepsNoDuplicates | components/settings/widget-selector.tsx:44-48 | toggling keeps a list duplicate-free |
| WidgetSelector.ToggleTwice | components/settings/widget-selector.tsx:44-48 | toggling an absent widget twice restores the list; toggling a present one twice moves it to the end |
| SettingsForm.SaveProfile | components/settings/settings-form.tsx:42-49 | saving takes widgets and layout from the persona tables and leaves every other field unchanged |
| SettingsForm.EditName | components/settings/settings-form.tsx:78 | editing the name changes only the name |
| SettingsForm.SelectPersona | components/settings/settings-form.tsx:93-96 | selecting replaces preferences with the persona alone and changes nothing else |
| SettingsForm.OfferedPersonas | components/settings/settings-form.tsx:12-31 | the offered personas are the options' values in order |
| SettingsForm.PersonasComplete | components/settings/settings-form.tsx:12-31 | each persona is offered exactly once, with the label of the persona table |
| SettingsForm.SaveIgnoresPreviousWidgets | components/settings/settings-form.tsx:46-47 | the saved widgets and layout depend only on the persona |
| SettingsForm.SaveIdempotent | components/settings/settings-form.tsx:42-49 | saving twice is saving once |
| SettingsForm.SelectThenSave | components/settings/settings-form.tsx:42-49 | selecting a persona and saving installs that persona's widgets and layout and keeps the name |
| SettingsForm.EditNameCommutesWithSave | components/settings/settings-form.tsx:42-49 | editing the name and saving commute |
| ConfigContext.Rank | lib/context/config-context.tsx:22 | the sort rank of a widget is below 5 |
| ConfigContext.RankIsNameOrder | lib/context/config-context.tsx:22 | rank order (`Rank`, below 5) is the string order of the widget names, as the default sort uses |
| ConfigContext.RankInjective | lib/context/config-context.tsx:22 | the rank identifies the widget |
| ConfigContext.SortedWidgetsCorrect | lib/context/config-context.tsx:22 | the sort result `SortedWidgets` is sorted and a permutation of its input |
| ConfigContext.SortedUnique | lib/context/config-context.tsx:22 | a sorted list is determined by its multiset |
| ConfigContext.SortIdempotent | lib/context/config-context.tsx:22 | a sorted list sorts to itself, so sorting twice is sorting once |
| ConfigContext.SortInPlace | lib/context/config-context.tsx:22 | `activeWidgets.sort()` leaves the array holding the sorted permutation of its old contents |
| ConfigContext.HashEqualIff | lib/context/config-context.tsx:20-26 | two configs have the same hash (`HashOf`) iff they have the same widget multiset, layout and time range; widgetOrder, autoRefresh and the interval are ignored |
| ConfigContext.HashIgnoresWidgetOrder | lib/context/config-context.tsx:22 | reordering the active widgets leaves the hash unchanged |
| ConfigContext.ConfigObject.constructor | types/index.ts:44-51 | a configuration object holds the given arrays and fields |
| ConfigContext.HashConfig | lib/context/config-context.tsx:20-26 | the hash is that of the old config; the active array is sorted in place; an unaliased widgetOrder is untouched |
| ConfigContext.SharedRelaxedArray | lib/mock-data.ts:12-13 | with one array behind activeWidgets, widgetOrder and the relaxed table, hashing the profile reorders all three |
| ConfigContext.MergeProfile | lib/context/config-context.tsx:60-62 | each given field takes the update's value and every other field keeps its old value |
| ConfigContext.MergeConfig | lib/context/config-context.tsx:67 | each given config field takes the update's value and every other field keeps its old value |
| ConfigContext.MergeLaws | lib/context/config-context.tsx:60-69 | an empty update is the identity; two updates in a row equal one combined update |
| ConfigContext.UpdateDashboardConfig | lib/context/config-context.tsx:64-69 | only dashboardConfig changes, merged field by field |
| ConfigContext.ConfigUpdateIsProfileUpdate | lib/context/config-context.tsx:60-69 | a config update is a profile update of dashboardConfig alone |
| ConfigContext.WithSortedWidgets | lib/context/config-context.tsx:22 | what the in-place sort makes of a profile: sorted active widgets and the same hash, with id, name, preferences, onboarded flag, widgetOrder, layout, time range, autoRefresh and interval all kept |
| ConfigContext.ConfigProvider.constructor | lib/context/config-context.tsx:29-31 | the provider starts with the Sofía fixture, loading, and an empty hash |
| ConfigContext.ConfigProvider.Load | lib/context/config-context.tsx:34-50 | a stored profile becomes current (sorted) and sets the hash; no entry gives Sofía not onboarded; text that `JSON.parse` rejects changes nothing; loading ends in every case |
| ConfigContext.ConfigProvider.Persist | lib/context/config-context.tsx:53-58 | once loaded, the profile is stored before it is sorted and the hash is recomputed; while loading nothing happens |
| ConfigContext.ConfigProvider.UpdateProfile | lib/context/config-context.tsx:60-62 | the profile becomes the shallow merge and nothing else changes |
| ConfigContext.ConfigProvider.UpdateConfig | lib/context/config-context.tsx:64-69 | the profile's config becomes the shallow merge and nothing else changes |
| ConfigContext.SortedPermutationIsSort | lib/context/config-context.tsx:22 | any sorted permutation of a list is its sort |
| ConfigContext.PersonaListsSorted | lib/context/config-context.tsx:22 | what the sort makes of the three persona lists; the auditor list changes order |
| UseDashboard.DashboardHook.constructor | lib/hooks/use-dashboard.ts:13-15 | no widgets, not regenerating, empty previous hash, no pending timers |
| UseDashboard.DashboardHook.OnConfig | lib/hooks/use-dashboard.ts:17-37 | the first hash is recorded without regenerating; a changed hash starts regeneration and schedules its adoption; an unchanged hash changes nothing; the widget array is sorted in place |
| UseDashboard.DashboardHook.Regenerate | lib/hooks/use-dashboard.ts:39-45 | sets the flag whatever the hash and schedules a timer that will not touch the previous hash |
| UseDashboard.DashboardHook.FireTimer | lib/hooks/use-dashboard.ts:30-33 | the oldest timer clears the flag and, for a config change, adopts the new hash |
| UseDashboardData.WidgetNames | lib/hooks/use-dashboard-data.ts:41 | the names of the active widgets in order |
| UseDashboardData.DepsKeyExact | lib/hooks/use-dashboard-data.ts:41 | the effect's dependency key `DepsOf` changes iff the id, the active widgets or shouldGenerate changes |
| UseDashboardData.ErrorFor | lib/hooks/use-dashboard-data.ts:33 | an error message is one of the two non-empty messages |
| UseDashboardData.DashboardDataHook.constructor | lib/hooks/use-dashboard-data.ts:10-12 | no data, loading, no error |
| UseDashboardData.DashboardDataHook.OnRender | lib/hooks/use-dashboard-data.ts:14-41 | unchanged deps do nothing; shouldGenerate false ends loading; otherwise loading starts, the error clears and a load is issued |
| UseDashboardData.DashboardDataHook.StartRefresh | lib/hooks/use-dashboard-data.ts:43-45 | a refresh sets loading and issues a request without clearing the error |
| UseDashboardData.DashboardDataHook.Settle | lib/hooks/use-dashboard-data.ts:27-36 | a finished request ends loading; success replaces the data; failure sets its message and keeps the data |
| Onboarding.CompletionWrites | app/onboarding/page.tsx:44-58 | completion writes the name, persona, widgets for both lists, layout and onboarded flag, and keeps the other fields |
| Onboarding.OnboardingPage.constructor | app/onboarding/page.tsx:14-21 | the page starts at step 1 with the profile's name, persona, widgets and layout |
| Onboarding.OnboardingPage.EditName | app/onboarding/page.tsx:105 | typing changes only the name |
| Onboarding.OnboardingPage.ChoosePersona | app/onboarding/page.tsx:117 | choosing changes only the persona |
| Onboarding.OnboardingPage.ContinueFromName | app/onboarding/page.tsx:144-146 | step 1 advances to 2 iff the name is not blank, blank meaning made only of the white space and line terminators `trim()` removes (Unicode spaces such as U+3000 included) |
| Onboarding.OnboardingPage.ToggleWidget | app/onboarding/page.tsx:163-166 | step 2 toggles the widget in the selection |
| Onboarding.OnboardingPage.BackToName | app/onboarding/page.tsx:169-170 | back from step 2 goes to step 1 |
| Onboarding.OnboardingPage.ContinueFromWidgets | app/onboarding/page.tsx:175-177 | step 2 advances to 3 iff at least one widget is selected |
| Onboarding.OnboardingPage.ChooseLayout | app/onboarding/page.tsx:195 | step 3 changes only the layout |
| Onboarding.OnboardingPage.BackToWidgets | app/onboarding/page.tsx:198-199 | back from step 3 goes to step 2 |
| Onboarding.OnboardingPage.Complete | app/onboarding/page.tsx:44-61 | completion leaves every entered field as it was, issues the update of handleComplete built from the entered name, persona, widgets and layout over the profile current at that moment, with a non-blank name and a non-empty widget list, then leaves |
| Onboarding.OnboardingPage.Skip | app/onboarding/page.tsx:217-224 | skipping at step 1 leaves without any update |
| Onboarding.RemainingStepsText | app/onboarding/page.tsx:76 | steps 1, 2, 3 show 3, 2, 1 remaining, plural except at step 3 |
| Onboarding.ProgressFillsPrefix | app/onboarding/page.tsx:82-86 | in the progress bar (`Progress`) the first segment is always filled, advancing never empties a segment, and the last step fills all three |
| PieChartView.CleanData | components/category-pie-chart.tsx:43 | same length and names, each value replaced by its absolute value, all non-negative |
| PieChartView.SliceColor | components/category-pie-chart.tsx:63 | every slice gets a colour from the palette |
| PieChartView.Render | components/category-pie-chart.tsx:42-66 | slice i keeps entry i's name with the absolute value of its value, gets palette colour i mod 6, and the centre total is the sum of the slices and never negative |
| PieChartView.TotalOfNonNegative | components/category-pie-chart.tsx:44 | a sum of non-negative values is non-negative |
| PieChartView.TotalNonNegative | components/category-pie-chart.tsx:43-44 | the chart total is never negative |
| PieChartView.CleanTotalRemove | components/category-pie-chart.tsx:43-44 | removing an entry takes its absolute value off the total |
| PieChartView.TotalOrderFree | components/category-pie-chart.tsx:44 | the total does not depend on the order of the data |
| PieChartView.RenderTotalOrderFree | components/category-pie-chart.tsx:44 | charts whose data are permutations of each other render the same total |
| PieChartView.ColorsCycle | components/category-pie-chart.tsx:63 | colours repeat every six slices, the first six are the palette in order, and the palette has no repeats |
| PieChartView.TitleIgnored | components/category-pie-chart.tsx:42 | the title has no effect on what is drawn |
| Prompts.PersonaMetaphor | lib/ai/prompts.ts:8-41 | the metaphor lookup is total, with a non-empty tone and component for every persona |
| Prompts.NumberedLinesAt | lib/ai/prompts.ts:67 | line i of the numbered list reads "first+i. widget" |
| Prompts.WidgetSectionLines | lib/ai/prompts.ts:67 | `WidgetSection` splits into one line "i+1. w" per active widget, in order; no widgets gives an empty section |
| Prompts.SystemPromptEmbedsNameAndPersona | lib/ai/prompts.ts:43-47 | `SystemPrompt` carries the user's name after the preamble, followed by the upper-cased persona |
| Prompts.ArchetypeUpperCased | lib/ai/prompts.ts:47 | the archetype reads RELAXED, AUDITOR or SPENDER |
| Prompts.SystemPromptInputs | lib/ai/prompts.ts:3-166 | the system prompt depends only on the name, the persona and the active widgets |
| Prompts.UserPromptStatesCount | lib/ai/prompts.ts:172-176 | the count in `UserPrompt`'s header reads back as the number of transactions |
| Prompts.MetaphorsDistinct | lib/ai/prompts.ts:8-39 | different personas get different tones |
| DashboardPage.BudgetRows | app/page.tsx:89-115 | one row per budget, in order, each keeping category, spent and limit with the state `Classify` and the width `BarWidth` give its percentage |
| DashboardPage.ClassifyExact | app/page.tsx:90-92 | `Classify`: over iff pct > 100, near iff 75 < pct ≤ 100, within otherwise; +∞ is over, −∞ and NaN are within |
| DashboardPage.ClassifyBudget | app/page.tsx:90-92 | on `Percentage(b)`: with a positive limit, over iff spent > limit and near iff ¾·limit < spent ≤ limit; with a zero limit, over iff anything is spent and never near |
| DashboardPage.PercentageCases | app/page.tsx:90 | `Percentage` is spent/limit·100 on a non-zero limit; a zero limit gives +∞, −∞ or NaN by the sign of spent |
| DashboardPage.BarWidthBounds | app/page.tsx:115 | `BarWidth` is in [0, 100] for pct ≥ 0, equals pct iff the budget is not over, is 100 when over, and is NaN on NaN |
| DashboardPage.FixtureBudgetRows | app/page.tsx:89-115 | Transport at exactly 75% is still within, Food is within, Leisure is over with a full bar |
| DashboardPage.FirstFive | app/page.tsx:68 | the grid gets a prefix of the ledger of length min(5, n) |
| DashboardPage.RenderWidget | app/page.tsx:51-176 | every widget type has a panel of its own kind, so the null default is unreachable |
| DashboardPage.RenderWidgets | app/page.tsx:199 | one panel per active widget, in the same order |
| DashboardPage.PanelKeysDistinct | app/page.tsx:51-127 | a duplicate-free widget list renders panels with distinct keys and titles |
| DashboardPage.PageChartMatchesFallback | app/page.tsx:73-81 | the page chart has the fallback's four entries, non-negative, under another title |
| DashboardPage.PagePayloadsPassSchemas | app/page.tsx:56-81 | the page's fixed summary and chart pass their validators |
| DashboardPage.RedirectIffBlank | app/page.tsx:27-48 | `ShouldRedirect` fires iff loaded and not onboarded, exactly when `View` renders nothing; loading shows the loading screen and never redirects |
| DashboardPage.DashboardContents | app/page.tsx:195-204 | for an onboarded user `View` shows a skeleton iff regenerating; otherwise the grid has the configured layout and one panel per active widget in order; empty state iff no widgets and not regenerating |
| DashboardPage.EmptyStateMeansNoPanels | app/page.tsx:195-204 | when the empty state shows, the grid is empty |

## Left out

- Browser storage, the network and the console are not modelled. Stored text is a value with three cases: a profile, nothing, or something that fails to parse. `JSON.parse`/`JSON.stringify` are abstract: the hash is the triple it stringifies, and the prompts take the ledger's stringifier as a parameter.
- Timers are not modelled as time. `setTimeout` callbacks become a FIFO queue of pending events fired one at a time, and the delays (500 ms, 1500 ms) are left out. A pending dashboard-data request may settle in any order (`Settle` takes its index).
- React rendering, routing and effect scheduling are left out. Effects are methods called at the points where React would run them. `router.push` becomes the page's `left` flag or the `ShouldRedirect` predicate.
- The language-model call (`generateObject`, and zod validation inside it) is a function parameter that produces an output or throws.
- `getFinancialResponse`'s other two tools are left out, and so is the streaming UI. Only the summary tool's repair and defaults are modelled.
- The stale duplicate `app/actions.ts` is not part of this model.
- `dashboardOutputSchema` and the budget and alert sub-schemas are not part of this model: the schemas file does not define them. The budget and alert payloads are records shaped as the two synthesizers build them.
- Prompts.PersonaMetaphor: keeps only the heading, tone and component of each metaphor row. The rule prose of the system prompt is left out after the widget section. The lemmas speak about the preamble, the name, the archetype, the widget list and the user prompt's count header.
- Fixture dates come from a clock, so they are a `getDay` parameter.
- Numbers are exact reals: IEEE rounding error is not modelled. Infinities and NaN are modelled where a zero limit can produce them.
- `formatCurrency` and all styling and markup are left out: the header, skeleton, grid, wrapper, layout picker, summary card, transaction grid, chart legend and tooltip.
- The onboarding page's own `PERSONAS` presentation list is left out (labels and emojis only). So is the settings form's `isSaving` flag.
- Partial updates give each field as present or absent. An explicit `undefined` value is not distinguished from an absent one.
- ConfigContext.ConfigProvider: holds the profile as a value. Aliasing between `activeWidgets`, `widgetOrder` and the persona table is modelled only by `HashConfig` on arrays and by `SharedRelaxedArray`. `Persist` and `Load` apply the sort's effect to the value explicitly.
- ConfigContext.ConfigProvider.Load: stored text that parses as JSON but is not a profile (`{}`, `0`, `null`, an older format without `dashboardConfig`) is not modelled. The source installs that value as the profile, then `hashConfig` throws, so the hash is kept and loading ends. The model's profile is always a well-formed record, and `Corrupt` stands only for text that `JSON.parse` rejects.
- UseDashboard.DashboardHook.OnConfig: takes the configuration object rather than the whole profile. The render that follows is not modelled.
