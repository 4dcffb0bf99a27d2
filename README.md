# CRM Pro dashboard — a Dafny model of its view logic

CRM Pro is a single-page sales dashboard written in React. This project models the logic behind
its views and proves properties of that model:

- the Opportunities Kanban, which groups leads by pipeline stage;
- the conversion analysis, with won and lost leads, the conversion rate and the lead sources
  sorted by rate;
- the dashboard's metric cards, each with a synthetic daily series, a current value and a trend;
- the leads table, with sorting, a row selection for bulk actions and status badges;
- the calls list, with a search box, an insights panel and next-meeting confirmation;
- the call-insights panel, with to-do and action-item check boxes, adding a to-do, the
  classification and the notes;
- the lead profile, with its status drop-down, observations, calls and meetings;
- the date-range filter;
- the prospection summary, with per-stage totals and the leads-over-time graph by filter;
- the sidebar, with category folding, active-item highlighting and click handling;
- the sales-training accordion, with lead selection and content fetching;
- the application shell, with view routing, dark mode, the profile menu, the sidebar toggle
  and the date range;
- the search bar.

Each component whose state changes is a `class`. Its fields are the component's `useState`
values, and its methods are the event handlers. Each method states the new state in full. The
pure helpers are functions, and lemmas state what the components promise. Dates are integer
milliseconds, or (day, month, year) parts where a formatted date is needed. Rates and trends are
exact reals. Strings are `seq<char>`, with ASCII-only case mapping.

Modules, one per file:

- `Types`: the records of `src/types/index.ts`, plus the seven status literals and their parser.
- `Seqs`, `Strings`, `Flags`: shared helpers.
  - Sequences: prefixes, removal and de-duplication.
  - Strings: the JavaScript string methods the views use (`toLowerCase`, `includes`,
    `split`/`join`, `trim`, `replace` with a string pattern, `padStart`, number to string).
  - Flags: the `{ ...prev, [k]: !prev[k] }` toggle on a boolean record.
- `DateFormat`: the `formatDate` helper. LeadProfile, CallInsightsView and CallsView define it
  identically.
- `Opportunities`, `Conversion`, `DashboardMetrics`, `LeadsTableView`, `CallsView`,
  `CallInsights`, `LeadProfile`, `DateRangeFilter`, `Prospection`, `Sidebar`, `SalesTraining`,
  `App`, `SearchBar`: one module per component.

Where the same helper is written twice in the source, it is defined once here:

- `formatStatusName` in `src/components/ProspectionView.tsx:10-15` is a copy of the one in
  `src/components/OpportunitiesView.tsx:21-26`.
- The ProspectionView stage list (`src/components/ProspectionView.tsx:7`) is the Kanban stage
  list.
- The confirm-meeting update of LeadProfile and CallsView is one function,
  `CallsView.ConfirmMeeting`.

## Model

| member | source | states |
|---|---|---|
| Types.ParseStatus | src/types/index.ts:9 | a string parses to a status only when it is that status's literal |
| Types.ParseStatusInverse | src/types/index.ts:9 | literal and parser are inverse: every status parses back from its literal, and a string parses to nothing exactly when no status has it as literal |
| Strings.ToLower | src/components/CallsView.tsx:148 | `toLowerCase` keeps the length and lower-cases each character in place |
| Strings.ToLowerIdempotent | src/components/CallsView.tsx:153-154 | lower-casing twice gives the same as lower-casing once |
| Strings.ContainsAt | src/components/CallsView.tsx:153-154 | `includes` holds exactly when the substring occurs at some index |
| Strings.JoinSplit | src/components/OpportunitiesView.tsx:22-25 | joining the pieces of a split with the same separator gives back the string |
| Strings.SplitJoin | src/components/OpportunitiesView.tsx:22-25 | splitting the join of separator-free words gives back the words |
| Strings.SplitPiecesFree | src/components/OpportunitiesView.tsx:23 | no piece of a split contains the separator |
| Strings.CapitalizeFirst | src/components/OpportunitiesView.tsx:24 | `charAt(0).toUpperCase() + slice(1)`: same length, upper-cased first character, remainder unchanged |
| Strings.TrimStartStops | src/components/CallInsightsView.tsx:70 | removing leading whitespace leaves a suffix of the input that is empty or does not start with whitespace, and what was removed is all whitespace |
| Strings.TrimEndStops | src/components/CallInsightsView.tsx:70 | removing trailing whitespace leaves a prefix of the input that is empty or does not end with whitespace, and what was removed is all whitespace |
| Strings.TrimSpec | src/components/CallInsightsView.tsx:70 | `trim()` gives the slice of the text that starts after its leading whitespace, and everything outside that slice is whitespace (IsTrimmedSlice) |
| Strings.TrimBlank | src/components/CallInsightsView.tsx:70-71 | `trim()` is empty exactly for an all-whitespace text, so only such a to-do is ignored; a non-empty result neither starts nor ends with whitespace |
| Strings.RemoveFirst | src/components/LeadProfile.tsx:296 | `replace(' ', '')` leaves a text without a space unchanged and otherwise removes exactly one character |
| Strings.RemoveFirstSplits | src/components/LeadProfile.tsx:296 | the removed character is the first space: the text is a space-free part, a space and the rest, and the result joins the two parts |
| Strings.RemoveFirstAfter | src/components/LeadProfile.tsx:296 | when the text before the first space has no space, removing the first space joins the two parts |
| Strings.NatToStringRoundTrip | src/components/LeadProfile.tsx:89-91 | the decimal digits of `String(n)` read back to `n` |
| Strings.NatToStringLength | src/components/LeadProfile.tsx:89-91 | `String(n)` has one to four digits for numbers below 10, 100, 1000 and 10000 |
| Strings.PadStart2 | src/components/LeadProfile.tsx:89 | `padStart(2, '0')` leaves a text of two or more characters alone and otherwise left-fills it with zeros to length 2 |
| Flags.FlipSpec | src/components/CallInsightsView.tsx:60 | `{ ...prev, [k]: !prev[k] }` flips flag `k`, with a missing key read as false, and keeps every other key and value; flipping twice restores every flag |
| DateFormat.FormatDate | src/components/LeadProfile.tsx:88-93 | the date reads DD/MM/… with slashes at positions 2 and 5 |
| DateFormat.TwoDigits | src/components/CallInsightsView.tsx:20-21 | a padded day or month of at most two digits is two digits that read back to the number |
| DateFormat.FormatDateRoundTrip | src/components/CallInsightsView.tsx:19-24 | for a four-digit year the text is 10 characters long, and day, month (`getMonth()` + 1) and year read back from it |
| DateFormat.FormatDateInjective | src/components/LeadProfile.tsx:88-93 | two dates with four-digit years format alike only when they are the same date |
| Opportunities.KanbanStagesComplete | src/components/OpportunitiesView.tsx:10-18 | the stages list every status, each once, in pipeline order |
| Opportunities.CapitalizeWords | src/components/OpportunitiesView.tsx:24 | the word map keeps the number of words and capitalises each one |
| Opportunities.FormatStatusName | src/components/OpportunitiesView.tsx:21-26 | definition of `formatStatusName` (split on ' ', capitalise each word, join with ' '); its properties are the FormatStatusName* lemmas below |
| Opportunities.FormatStatusNameUnfold | src/components/OpportunitiesView.tsx:21-26 | a name with a space is formatted as its first word capitalised, a space, then the rest formatted |
| Opportunities.FormatStatusNameWord | src/components/OpportunitiesView.tsx:21-26 | a one-word name only gets its first letter capitalised |
| Opportunities.FormatStatusNameChars | src/components/OpportunitiesView.tsx:21-26 | the length is kept, and a character is upper-cased exactly when it starts a word; all others are unchanged |
| Opportunities.FormatStatusNameWords | src/components/OpportunitiesView.tsx:21-26 | the formatted name has the same words, each capitalised, and so the same word count |
| Opportunities.CapitalizeFirstSpaceFree | src/components/OpportunitiesView.tsx:24 | capitalising a word adds no space |
| Opportunities.FormatTwoWords | src/components/OpportunitiesView.tsx:21-26 | a two-word name becomes its two words capitalised around one space |
| Opportunities.FormatClosedWon | src/components/OpportunitiesView.tsx:21-26 | 'closed won' is shown as 'Closed Won' |
| Opportunities.LeadsWithStatus | src/components/OpportunitiesView.tsx:32 | a bucket holds exactly the leads of that status, in input order |
| Opportunities.LeadsByStatus | src/components/OpportunitiesView.tsx:31-34 | the grouping has an entry for every status, and the entry of a status holds exactly the leads of that status |
| Opportunities.GroupByStatus | src/components/OpportunitiesView.tsx:31-34 | the reduce builds an entry for every stage, holding that stage's filtered leads |
| Opportunities.LeadsWithStatusCount | src/components/OpportunitiesView.tsx:32 | a lead occurs in a bucket as often as in the input when its status is the bucket's stage, and otherwise not at all |
| Opportunities.Columns | src/components/OpportunitiesView.tsx:31-34 | definition: the multiset union of the seven columns, shown equal to the leads by ColumnsUnion |
| Opportunities.ColumnsUnion | src/components/OpportunitiesView.tsx:31-34 | the union of the seven buckets is the input multiset |
| Opportunities.ColumnsPartition | src/components/OpportunitiesView.tsx:31-34 | every lead is in the bucket of its own status and no other, and the bucket sizes add up to the number of leads |
| Opportunities.ColumnsDisjoint | src/components/OpportunitiesView.tsx:31-34 | buckets of two different stages share no lead |
| Opportunities.ColumnCount | src/components/OpportunitiesView.tsx:66 | definition of `leadsByStatus[stage]?.length \|\| 0`; ColumnCountIsSize proves it is the column size |
| Opportunities.ColumnCountIsSize | src/components/OpportunitiesView.tsx:66 | the shown count is the bucket's length, and it is 0 exactly when no lead has that stage |
| Conversion.ConversionRate | src/components/ConversionView.tsx:15-16 | the rate is between 0 and 100, equals won/total·100, and is 0 with no leads |
| Conversion.WonLostExact | src/components/ConversionView.tsx:11-12 | the won list holds exactly the 'closed won' leads and the lost list exactly the 'closed lost' leads, with their multiplicities |
| Conversion.WonLostDisjoint | src/components/ConversionView.tsx:11-12 | the won and lost lists are disjoint, and together fit in the leads, so won + lost ≤ total |
| Conversion.WonLeads | src/components/ConversionView.tsx:11 | the won leads are exactly the leads with status 'closed won', in input order |
| Conversion.LostLeads | src/components/ConversionView.tsx:12 | the lost leads are exactly the leads with status 'closed lost', in input order |
| Conversion.PermutationInvariant | src/components/ConversionView.tsx:11-16 | reordering the leads changes neither count nor the rate |
| Conversion.Swap | src/components/ConversionView.tsx:104 | a swap exchanges the two entries and keeps the multiset of entries |
| Conversion.SinkLeft | src/components/ConversionView.tsx:104 | one insertion step extends the sorted prefix by one, permutes the array and leaves the rest untouched |
| Conversion.SortByRateDesc | src/components/ConversionView.tsx:104 | the in-place sort leaves the sources ordered by non-increasing rate and is a permutation of them |
| Conversion.LeadSourceEffectivenessSorted | src/components/ConversionView.tsx:31-36 | the mock source list is already in that order |
| DashboardMetrics.Round | src/components/DashboardMetrics.tsx:30 | `Math.round` gives the integer within half a unit, with halves rounded up |
| DashboardMetrics.DiffDays | src/components/DashboardMetrics.tsx:30 | the day count of a range is at least 1 |
| DashboardMetrics.DaysToGenerate | src/components/DashboardMetrics.tsx:33 | the series length is the day count, or 2 when that is smaller; never below 2 |
| DashboardMetrics.Fluctuation | src/components/DashboardMetrics.tsx:38 | definition of `(Math.random() - 0.5) * (baseValue * 0.6)` on the injected draw; bounded by FluctuationBound |
| DashboardMetrics.FluctuationBound | src/components/DashboardMetrics.tsx:38 | a step moves by at most 30% of a non-negative base value either way |
| DashboardMetrics.NextValue | src/components/DashboardMetrics.tsx:39 | the next value is never negative, and is the rounded sum unless clamped to 0 |
| DashboardMetrics.SeriesValues | src/components/DashboardMetrics.tsx:35-48 | one value per draw, each never negative |
| DashboardMetrics.GraphSpec | src/components/DashboardMetrics.tsx:26-55 | the series has `max(diffDays, 2)` points, so the duplicate-point step never changes it |
| DashboardMetrics.PadSingleDay | src/components/DashboardMetrics.tsx:50-52 | definition of the duplicate-point step (a copy of the only point with a marked label); PadSingleDayOnlyOnOnePoint says when it applies |
| DashboardMetrics.PadSingleDayOnlyOnOnePoint | src/components/DashboardMetrics.tsx:50-52 | the duplicate-point step changes the data exactly for a one-day range with one point |
| DashboardMetrics.GenerateGraphDataForRange | src/components/DashboardMetrics.tsx:26-55 | the loop computes the series of the random walk: `max(diffDays, 2)` ≥ 2 points, non-negative values, point `i` on day `i`; a one-day range yields the start day and the day after |
| DashboardMetrics.Trend | src/components/DashboardMetrics.tsx:97-104 | definition of the trend of two end values; its properties are TrendProperties |
| DashboardMetrics.SeriesTrend | src/components/DashboardMetrics.tsx:95-104 | definition: the trend of the ends for two points or more, else 0; used by MetricOfGeneratedSeries |
| DashboardMetrics.CurrentValue | src/components/DashboardMetrics.tsx:93 | definition: the last point's value, or the base value for an empty series; used by MetricOfGeneratedSeries |
| DashboardMetrics.TrendProperties | src/components/DashboardMetrics.tsx:95-104 | with a positive first value the trend is the relative change in percent, at least −100 and non-negative exactly when the series did not fall; from 0 it is 100 if the series rises and 0 otherwise; a flat series has trend 0 |
| DashboardMetrics.MetricFor | src/components/DashboardMetrics.tsx:106-111 | a card copies id, name, icon and link from its configuration and carries its series |
| DashboardMetrics.MetricOfGeneratedSeries | src/components/DashboardMetrics.tsx:93-104 | on a generated series the card's value is the last point's, never negative, and its trend is that of the first and last points |
| DashboardMetrics.UpdatedMetrics | src/components/DashboardMetrics.tsx:88-114 | one card per configuration entry, in order, each from its own series, with the configuration fields copied and a non-negative value |
| LeadsTableView.NextSort | src/components/LeadsTable.tsx:21-23 | the new sort is on the clicked field, and descending exactly when that field was sorted ascending |
| LeadsTableView.NextSortAlternates | src/components/LeadsTable.tsx:21-26 | a new column starts ascending, and repeated clicks on a column alternate the direction |
| LeadsTableView.AllIds | src/components/LeadsTable.tsx:30 | select-all holds each lead id once, and nothing else |
| LeadsTableView.Toggle | src/components/LeadsTable.tsx:36-44 | definition of the set toggle (delete if present, else append); its properties are ToggleFlips and ToggleTwice |
| LeadsTableView.ToggleFlips | src/components/LeadsTable.tsx:36-44 | selecting a lead flips its membership, leaves every other id as it was, and keeps the selection duplicate-free |
| LeadsTableView.ToggleTwice | src/components/LeadsTable.tsx:36-44 | selecting the same lead twice restores the selected set, and the order too when it was not selected at first |
| LeadsTableView.HeaderChecked | src/components/LeadsTable.tsx:81 | definition of `selectedLeads.size === leads.length && leads.length > 0`; SelectAllChecksHeader and HandleSelectAll state when it holds |
| LeadsTableView.SelectAllChecksHeader | src/components/LeadsTable.tsx:81 | with distinct lead ids, select-all checks the header exactly when there are leads; an empty selection never checks it |
| LeadsTableView.StatusBadgeAsWritten | src/components/LeadsTable.tsx:168-172 | definition of the badge chain as written, with the 'proposal' test; PurpleBadgeUnreachable is its property |
| LeadsTableView.PurpleBadgeUnreachable | src/components/LeadsTable.tsx:171 | as written, no status gets the purple badge, and 'proposal sent' gets the grey one |
| LeadsTableView.StatusBadge | src/components/LeadsTable.tsx:168-172 | corrected: purple exactly for 'proposal sent', grey exactly for negotiation and the two closed stages |
| LeadsTableView.StatusLabel | src/components/LeadsTable.tsx:175 | the label is the status with only its first letter capitalised |
| LeadsTableView.LeadsTable.constructor | src/components/LeadsTable.tsx:14-19 | nothing is selected, the sort is by last contact descending, and no profile is open |
| LeadsTableView.LeadsTable.HandleSort | src/components/LeadsTable.tsx:21-26 | the stored sort and the one passed to `onSort` are both the next sort; the selection is untouched |
| LeadsTableView.LeadsTable.HandleSelectAll | src/components/LeadsTable.tsx:28-34 | checked selects every lead id, unchecked selects none; the footer then shows exactly when all of at least one lead were selected, unchecking never leaves the header checked, and with distinct ids select-all checks it exactly when there are leads |
| LeadsTableView.LeadsTable.HandleSelectLead | src/components/LeadsTable.tsx:36-44 | the lead's membership flips, every other id keeps it, and the selection stays duplicate-free |
| LeadsTableView.LeadsTable.OpenProfile | src/components/LeadsTable.tsx:144 | clicking a name opens that lead's profile |
| LeadsTableView.LeadsTable.CloseProfile | src/components/LeadsTable.tsx:225 | closing the profile clears it and keeps the selection |
| LeadsTableView.LeadsTable.HeaderCheckboxChecked | src/components/LeadsTable.tsx:81 | definition: the header state for the current selection; HandleSelectAll states its value after select-all |
| LeadsTableView.LeadsTable.HeaderCheckboxDisabled | src/components/LeadsTable.tsx:83 | definition: the header is disabled when there are no leads |
| LeadsTableView.LeadsTable.ShowBulkFooter | src/components/LeadsTable.tsx:194 | definition: the footer shows while some id is selected; HandleSelectAll states when it shows |
| LeadsTableView.LeadsTable.BulkActionIds | src/components/LeadsTable.tsx:204 | Delete and Export receive exactly the selected ids, each once, in selection order |
| CallsView.FilterCalls | src/components/CallsView.tsx:152-155 | each call occurs in the result as often as in the input when its lower-cased lead or agent name contains the query, and not at all otherwise; the result keeps the input order |
| CallsView.SearchCallsSpec | src/components/CallsView.tsx:147-158 | an empty query lists all calls in order; otherwise each matching call as often as it occurs, no other call, in input order |
| CallsView.SearchCaseInsensitive | src/components/CallsView.tsx:148 | queries that lower-case alike give the same list |
| CallsView.EmptyFilterKeepsAll | src/components/CallsView.tsx:149-156 | filtering with the empty query would also keep every call |
| CallsView.ConfirmMeeting | src/components/CallsView.tsx:195-197 | meetings with the id get the status 'Confirmation Requested'; length, order and every other meeting are unchanged |
| CallsView.ConfirmMeetingIdempotent | src/components/CallsView.tsx:195-197 | confirming twice equals confirming once, and confirmations of two ids commute |
| CallsView.Matches | src/components/CallsView.tsx:153-154 | definition of the filter test: the lower-cased lead or agent name includes the query |
| CallsView.SearchCalls | src/components/CallsView.tsx:147-158 | definition of the search effect's result; its properties are SearchCallsSpec and SearchCaseInsensitive |
| CallsView.CallsView.constructor | src/components/CallsView.tsx:142-145 | the list starts as all calls with an empty query, nothing selected and the two next meetings |
| CallsView.CallsView.SetSearchQuery | src/components/CallsView.tsx:147-158 | after typing, the list is the search result for the new query |
| CallsView.CallsView.HandleItemClick | src/components/CallsView.tsx:160-166 | an item is selected only when it has insights; otherwise the selection is unchanged |
| CallsView.CallsView.HandleCloseInsights | src/components/CallsView.tsx:168-170 | closing clears the selection |
| CallsView.CallsView.HandleConfirmMeeting | src/components/CallsView.tsx:191-199 | the next meetings become their confirmed form |
| CallInsights.AllUnchecked | src/components/CallInsightsView.tsx:49 | the record has exactly the indices of the list, all unchecked |
| CallInsights.UncheckedFor | src/components/CallInsightsView.tsx:49 | the reduce builds one false entry per index of the list, and no other key |
| CallInsights.Heading | src/components/CallInsightsView.tsx:119 | the heading is always 'Call Insights', because both calls and meetings have a duration |
| CallInsights.CallInsightsView.constructor | src/components/CallInsightsView.tsx:36-57 | the lists come from the insights with every row unchecked; the classification is the first option; notes and the new to-do text are empty |
| CallInsights.CallInsightsView.ItemChanged | src/components/CallInsightsView.tsx:44-57 | a new item reloads both lists all unchecked, and resets the classification and the notes |
| CallInsights.CallInsightsView.HandleTodoToggle | src/components/CallInsightsView.tsx:59-62 | only the to-do flag at that index flips |
| CallInsights.CallInsightsView.HandleActionItemToggle | src/components/CallInsightsView.tsx:64-67 | only the action-item flag at that index flips |
| CallInsights.CallInsightsView.HandleAddTodo | src/components/CallInsightsView.tsx:69-77 | blank text changes nothing; otherwise the trimmed text becomes the last to-do, its row is unchecked and the input is cleared |
| CallInsights.CallInsightsView.HandleNewTodoChange | src/components/CallInsightsView.tsx:79-81 | the input text is the typed value |
| CallInsights.CallInsightsView.HandleClassificationChange | src/components/CallInsightsView.tsx:87-90 | the classification is the chosen value |
| CallInsights.CallInsightsView.HandleNotesChange | src/components/CallInsightsView.tsx:92-94 | the notes are the typed value |
| LeadProfile.OptionValueAgreesIffOneWord | src/components/LeadProfile.tsx:296 | the written option value equals the lower-cased label exactly when the label has no space |
| LeadProfile.OptionValueAsWritten | src/components/LeadProfile.tsx:296 | definition of the option value as written, `toLowerCase().replace(' ', '')` |
| LeadProfile.StatusOptionValue | src/components/LeadProfile.tsx:296 | definition of the intended option value, the lower-cased label; StatusOptionValuesAreLiterals is its property |
| LeadProfile.TwoWordValue | src/components/LeadProfile.tsx:296 | the written value of a two-word label is its two lower-cased words run together |
| LeadProfile.ProposalSentAsWritten | src/components/LeadProfile.tsx:296 | as written, the 'Proposal Sent' option carries 'proposalsent' |
| LeadProfile.ClosedWonAsWritten | src/components/LeadProfile.tsx:296 | as written, the 'Closed Won' option carries 'closedwon' |
| LeadProfile.ClosedLostAsWritten | src/components/LeadProfile.tsx:296 | as written, the 'Closed Lost' option carries 'closedlost' |
| LeadProfile.WrittenValuesNotStatuses | src/types/index.ts:9 | 'proposalsent', 'closedwon' and 'closedlost' are none of the seven status literals |
| LeadProfile.OptionValuesAsWritten | src/components/LeadProfile.tsx:296 | as written, 'Proposal Sent', 'Closed Won' and 'Closed Lost' get 'proposalsent', 'closedwon' and 'closedlost', which parse to no status |
| LeadProfile.OneWordOptionsAsWritten | src/components/LeadProfile.tsx:296 | as written, each one-word option carries its stage's literal |
| LeadProfile.StatusOptionValuesAreLiterals | src/components/LeadProfile.tsx:79 | corrected: every option carries the literal of the stage at its position |
| LeadProfile.LeadProfile.constructor | src/components/LeadProfile.tsx:103-108 | the status is the lead's, observations are its notes or empty, no insights are open, and the status is a valid literal |
| LeadProfile.LeadProfile.HandleStatusChange | src/components/LeadProfile.tsx:128-131 | choosing an option sets the status to the stage at that position (corrected value) and keeps it valid |
| LeadProfile.LeadProfile.HandleCallClick | src/components/LeadProfile.tsx:113-119 | a call is opened only when it has insights; otherwise the selection is unchanged |
| LeadProfile.LeadProfile.HandleCloseInsights | src/components/LeadProfile.tsx:120-122 | closing clears the selected call |
| LeadProfile.LeadProfile.HandleObservationsChange | src/components/LeadProfile.tsx:147-150 | the observations are the typed value |
| LeadProfile.LeadProfile.HandleConfirmMeeting | src/components/LeadProfile.tsx:177-184 | only the matching meetings change, to 'Confirmation Requested' |
| DateRangeFilter.StartDateChange | src/components/DateRangeFilter.tsx:16-21 | a start date is forwarded exactly when it is valid and not after the end, together with the unchanged end |
| DateRangeFilter.EndDateChange | src/components/DateRangeFilter.tsx:23-28 | an end date is forwarded exactly when it is valid and not before the start, together with the unchanged start |
| DateRangeFilter.ForwardedRangeOrdered | src/components/DateRangeFilter.tsx:16-28 | every forwarded range is ordered, and an invalid date is never forwarded |
| DateRangeFilter.EditsKeepOrder | src/components/DateRangeFilter.tsx:16-28 | after any sequence of edits, an ordered range stays ordered, and each bound is the old one or a date the user entered |
| Prospection.Keys | src/components/ProspectionView.tsx:19-20 | the keys of a count record, in order |
| Prospection.DisplayCount | src/components/ProspectionView.tsx:78 | a missing stage is shown as 0, and a present one as its count |
| Prospection.Total | src/components/ProspectionView.tsx:41-42 | definition of `Object.values(record).reduce((a, b) => a + b, 0)`; TotalIsSumOfListed relates it to the shown counts |
| Prospection.StageSumCons | src/components/ProspectionView.tsx:41-42 | adding an entry to the record adds its count to the stage sum when its stage is listed |
| Prospection.TotalIsSumOfListed | src/components/ProspectionView.tsx:41-42 | for a record without repeated keys, the reduce total is the sum of the counts of the listed stages |
| Prospection.MockTotals | src/components/ProspectionView.tsx:19-20 | the inbound total is 61 and the outbound total is 109 |
| Prospection.StageOrderedTotal | src/components/ProspectionView.tsx:41-42 | a record with one entry per stage, in stage order, has a total equal to the sum of the counts shown per stage |
| Prospection.InboundTotalListed | src/components/ProspectionView.tsx:41 | the inbound header total is the sum of the seven inbound stage counts |
| Prospection.OutboundTotalListed | src/components/ProspectionView.tsx:42 | the outbound header total is the sum of the seven outbound stage counts |
| Prospection.PointFor | src/components/ProspectionView.tsx:46-56 | 'total' sets inbound, outbound and their sum; 'inbound' sets only inbound; 'outbound' sets only outbound; the month is always copied |
| Prospection.GraphData | src/components/ProspectionView.tsx:45-57 | one point per month, in the same month order |
| Prospection.TotalGraphRoundTrip | src/components/ProspectionView.tsx:45-57 | the monthly series reads back from the total graph, and each total is the inbound point plus the outbound point |
| Prospection.ProspectionView.constructor | src/components/ProspectionView.tsx:38 | the graph starts on the 'total' filter, whose button is highlighted |
| Prospection.ProspectionView.SetGraphFilter | src/components/ProspectionView.tsx:112 | a filter button selects its filter, and then exactly its button is highlighted |
| Prospection.ProspectionView.CurrentGraphData | src/components/ProspectionView.tsx:45-57 | the current graph has the months of the mock series, in order |
| Prospection.ProspectionView.ButtonActive | src/components/ProspectionView.tsx:114 | definition of the highlight test `graphFilter === filter`; SetGraphFilter states that one button is highlighted |
| App.RenderCurrentView | src/App.tsx:228-296 | the routing is total, and a placeholder shows the requested view name |
| App.RoutingPartition | src/App.tsx:228-296 | the dashboard is shown exactly for 'dashboard' or an unmatched view; the placeholder exactly for an unmatched placeholder route |
| App.PageRoutes | src/App.tsx:259-269 | 'conversion' and 'deals/conversions' show the conversion view, 'salesTraining' sales training and 'prospection' the prospection page |
| App.PlaceholderRoutes | src/App.tsx:273-278 | 'deals/proposals' and 'analytics' show the placeholder named after them |
| App.ProfileFallsBack | src/App.tsx:281-295 | 'profile', the view the profile menu navigates to, matches no test and falls back to the dashboard |
| App.FirstCharDiffers | src/App.tsx:262 | a view whose first character differs from a prefix's does not start with it |
| App.SalesTrainingSubRoutes | src/App.tsx:262 | every view starting with 'salesTraining/' shows sales training |
| App.ProspectionSubRoutes | src/App.tsx:268-278 | every view starting with 'prospection/' shows the placeholder named after it, while bare 'prospection' has its own page |
| App.CategorySubRoutes | src/App.tsx:273-278 | every view starting with 'automations/' or 'callPlanning/' shows the placeholder named after it |
| App.DefaultDateRange | src/App.tsx:145-150 | the default range ends now, starts 30 days earlier and is ordered |
| App.AppState.constructor | src/App.tsx:162-179 | the app starts on the dashboard with the default range, the stored dark-mode preference, and menu and sidebar closed |
| App.AppState.ShownView | src/App.tsx:409 | definition: the page rendered for the current view; Navigate states it is the route of the new view |
| App.AppState.Navigate | src/App.tsx:240 | `setCurrentView` changes only the view, and the shown page is its route |
| App.AppState.ToggleDarkMode | src/App.tsx:191-193 | dark mode is negated and nothing else changes |
| App.AppState.HandleDropdownNavigate | src/App.tsx:218-221 | the view is set and the profile menu is closed |
| App.AppState.ToggleProfileDropdown | src/App.tsx:332 | the profile menu flips open or closed |
| App.AppState.SetSidebarOpen | src/App.tsx:302 | the sidebar is opened or closed as asked |
| App.AppState.HandleDateChange | src/App.tsx:211-215 | the date range becomes the forwarded pair |
| App.AppState.EditDateRange | src/App.tsx:211-215 | a filter edit applied to the app keeps the stored range ordered |
| Sidebar.ActiveRules | src/components/Sidebar.tsx:143-147 | a header and a leaf are never both active; a header with a view is active exactly on its view and below it; a leaf exactly on its view |
| Sidebar.ViewlessHeaders | src/components/Sidebar.tsx:146 | a header without a view is active only below "undefined/", so Automations, Call Planning and Deals are not highlighted on their own sub-views |
| Sidebar.IsActiveParent | src/components/Sidebar.tsx:146 | definition of `isActiveParent`; ActiveRules and ViewlessHeaders are its properties |
| Sidebar.IsActiveItem | src/components/Sidebar.tsx:147 | definition of `isActiveItem`; ActiveRules is its property |
| Sidebar.Highlighted | src/components/Sidebar.tsx:163 | definition of a top-level button's highlight: an active leaf, or an active header while expanded |
| Sidebar.HasView | src/components/Sidebar.tsx:157-158 | definition of the `if (item.view)` test; ClickItem navigates exactly when it holds |
| Sidebar.SubItemHighlighted | src/components/Sidebar.tsx:196 | definition: a sub-item is highlighted on its own view |
| Sidebar.SidebarState.constructor | src/components/Sidebar.tsx:72-73 | the menu starts expanded with every category closed |
| Sidebar.SidebarState.ToggleCategory | src/components/Sidebar.tsx:83-88 | the named category flips, a missing one counting as closed, and every other category keeps its state; a header of that name then lists its sub-items exactly when the category was closed and the menu is expanded |
| Sidebar.SidebarState.ClickItem | src/components/Sidebar.tsx:153-161 | a header toggles its category, a leaf does not; the click navigates exactly when the item has a non-empty view, and then to that view |
| Sidebar.SidebarState.ToggleCollapsed | src/components/Sidebar.tsx:218 | the collapse button flips the collapsed state and keeps the categories; a collapsed menu lists no sub-items |
| Sidebar.SidebarState.ShowSubItems | src/components/Sidebar.tsx:189 | definition: a header's sub-items are listed while its category is open and the menu expanded |
| Sidebar.PlainItemsRouted | src/components/Sidebar.tsx:10-61 | each menu item without sub-items leads to its page or to the placeholder, not to the dashboard fallback |
| Sidebar.ProspectionRouted | src/components/Sidebar.tsx:16-22 | a menu view starting with 'prospection/' is routed |
| Sidebar.SalesTrainingRouted | src/components/Sidebar.tsx:46-50 | a menu view starting with 'salesTraining/' is routed |
| Sidebar.AutomationsRouted | src/components/Sidebar.tsx:27-29 | a menu view starting with 'automations/' is routed |
| Sidebar.CallPlanningRouted | src/components/Sidebar.tsx:37-40 | a menu view starting with 'callPlanning/' is routed |
| Sidebar.ProspectionItemRouted | src/components/Sidebar.tsx:16-22 | every Prospection sub-item is routed |
| Sidebar.AutomationsItemRouted | src/components/Sidebar.tsx:27-29 | the Automations sub-item is routed |
| Sidebar.CallPlanningItemRouted | src/components/Sidebar.tsx:37-40 | every Call Planning sub-item is routed |
| Sidebar.SalesTrainingItemRouted | src/components/Sidebar.tsx:46-50 | every Sales Training sub-item is routed |
| Sidebar.DealsItemRouted | src/components/Sidebar.tsx:55-58 | both Deals sub-items are routed: proposals to the placeholder, conversions to the conversion view |
| Sidebar.MenuViewsRouted | src/components/Sidebar.tsx:9-62 | every view in the menu, on an item or a sub-item, is routed |
| SalesTraining.SalesTrainingView.constructor | src/components/SalesTrainingView.tsx:24-27 | no lead, content, loading flag or open section |
| SalesTraining.SalesTrainingView.HandleLeadChange | src/components/SalesTrainingView.tsx:29-35 | a new lead empties the content and the loading flags and closes the open section |
| SalesTraining.SalesTrainingView.FetchStart | src/components/SalesTrainingView.tsx:49-57 | with no lead nothing changes; otherwise the section is loading and its content is cleared |
| SalesTraining.SalesTrainingView.FetchComplete | src/components/SalesTrainingView.tsx:84-85 | the section gets its content and stops loading, so with a lead its refresh button is enabled again |
| SalesTraining.SalesTrainingView.ToggleSection | src/components/SalesTrainingView.tsx:37-47 | the open section toggles; a fetch starts exactly when a closed section without content and not loading is opened with a lead selected; afterwards the toggled section is open exactly when it was closed, and no other section is open |
| SalesTraining.SalesTrainingView.Refresh | src/components/SalesTrainingView.tsx:136-145 | the button is enabled only with a lead and while the section is not loading, so a click always refetches and opens the section, which disables the button again; the missing-lead alert is unreachable |
| SalesTraining.SalesTrainingView.RefreshDisabled | src/components/SalesTrainingView.tsx:145 | definition of `disabled={isLoading[section.id] \|\| !selectedLeadId}`; Refresh requires it false, and Refresh and FetchComplete state how it changes |
| SalesTraining.SalesTrainingView.IsOpen | src/components/SalesTrainingView.tsx:157 | definition: the open section is the shown one; ToggleSection and Refresh state its value |
| SalesTraining.NextOpen | src/components/SalesTrainingView.tsx:38-41 | toggling the open section closes it, and toggling any other opens that one |
| SalesTraining.OpenIsLastToggled | src/components/SalesTrainingView.tsx:37-47 | after any sequence of toggles, at most one section is open, and it is the last one toggled |
| SearchBar.ShownRecentLeads | src/components/SearchBar.tsx:76 | the first min(5, n) recent leads, in order |
| SearchBar.ShownHistory | src/components/SearchBar.tsx:115 | the first min(3, n) history entries, in order |
| SearchBar.SectionsShown | src/components/SearchBar.tsx:72-76 | a section is shown exactly when its list is non-empty, and short lists are shown whole |
| SearchBar.SearchBarState.constructor | src/components/SearchBar.tsx:12-13 | closed, with an empty query |
| SearchBar.SearchBarState.Focus | src/components/SearchBar.tsx:51 | focusing opens the dropdown |
| SearchBar.SearchBarState.Change | src/components/SearchBar.tsx:50 | typing sets the query, and the clear button shows exactly for a non-empty query |
| SearchBar.SearchBarState.HandleKeyDown | src/components/SearchBar.tsx:28-36 | Escape closes without searching; Enter searches the current query and closes; other keys change nothing; the query is kept |
| SearchBar.SearchBarState.Clear | src/components/SearchBar.tsx:56-59 | the clear button empties the query, hides itself, and the refocus of the input opens the dropdown unless the input kept the focus |
| SearchBar.SearchBarState.SelectRecentLead | src/components/SearchBar.tsx:80-84 | picking a recent lead searches its name, puts it in the box and closes the dropdown |
| SearchBar.SearchBarState.SelectHistoryItem | src/components/SearchBar.tsx:119-123 | picking a past search repeats its query, puts it in the box and closes the dropdown |
| SearchBar.SearchBarState.ShowClearButton | src/components/SearchBar.tsx:54 | definition: the clear button shows for a non-empty query |

## Left out

- Rendering: JSX, Tailwind classes, recharts charts and lucide icons are presentation only.
- `src/components/SettingsView.tsx`, `src/components/AgendaView.tsx` and
  `src/components/TimelineItemDetails.tsx` are not part of this model. They are a settings form,
  an alert stub and a render-only detail card. In the routing they appear only as view kinds.
- The dark-mode effect and its initial value (`src/App.tsx:173-189`) use `localStorage`,
  `matchMedia` and the document's class list. The stored preference is a constructor parameter
  of `App.AppState`.
- Browser calls are not modelled: `window.open`, the `tel:`/`mailto:`/`wa.me` links, and
  `window.innerWidth`. The sidebar's mobile auto-close after navigation is therefore left out.
- The `document` listeners are not modelled: click outside the profile menu and the search
  dropdown, and Escape for the sidebar.
- The simulated delays (`setTimeout`/`await`) are not modelled. Only the state update after each
  delay is modelled. `SalesTraining.SalesTrainingView.FetchStart` and `FetchComplete` are the two
  halves of `fetchTrainingContent`. A completion that arrives after the lead has changed is not
  modelled.
- The generated training markdown and its line renderer are not modelled. The content is a
  parameter of `FetchComplete`.
- Console and `alert` output are not modelled. The alert of the refresh button without a lead
  is unreachable, because the button is disabled without a lead.
- Focus is not modelled beyond the clear button of the search box: `SearchBar.SearchBarState.Clear`
  takes as a parameter whether the input still held the focus when the button was pressed.
- `Math.random` is a sequence of draws passed to
  `DashboardMetrics.GenerateGraphDataForRange`. The contract holds for any draws; only
  `FluctuationBound` needs them to be in [0, 1).
- `Date` arithmetic is not modelled. Dates are milliseconds, and
  `setDate(getDate() - 30)` is 30 whole days (no daylight-saving shift). Locale formatting of
  the chart labels and `toISOString` are not modelled. A label is its day's time stamp plus the
  trailing-space flag.
- Parsing a date input (`new Date(value + 'T00:00:00')`) is not modelled. An unparsable value is
  `None`, the model of `NaN`.
- Time zones are not modelled: `formatDate` takes the calendar parts directly.
- DashboardMetrics.MetricFor: the trend is exact. `parseFloat(trend.toFixed(1))`, which rounds
  it to one decimal, is not modelled; neither is `toFixed(1)` on the conversion rate.
- Arithmetic on rates and trends is exact, not IEEE floating point.
- Strings have no Unicode case mapping. `toLowerCase` and `toUpperCase` map ASCII letters only.
- The JavaScript sort's stability is not modelled:
  `Conversion.SortByRateDesc` is an insertion sort proved sorted and a permutation.
- The mock data arrays are not modelled, except where a lemma is about them: the Kanban stages,
  the training sections, the menu, the prospection counts and series, the next meetings, and
  the lead-source list. The calls and leads are constructor parameters.
- LeadProfile's MRR, NRR and solution inputs, its AI call-plan and sales-script loading flags,
  and its timeline selection are not modelled. They are plain setters of fields nothing else
  reads, and the loading flags are tied to the simulated delays.
- The drag-and-drop stub of the Kanban and CallInsightsView's `handleTodoSort` and
  `handleActionItemSort` are not modelled. The first only alerts. The latter two are unused
  setters.
- `handleViewLeadDetails` is not modelled. It only calls the two callbacks.
- CallInsights.CallInsightsView.ItemChanged: for an item without insights the source renders
  nothing before its hooks run. The model keeps the previous lists in that case and resets only
  the classification and the notes.
- The `...config` spread copies `baseValue` into each card, which `Types.SalesMetric` has no
  field for.
- LeadProfile.LeadProfile.HandleStatusChange: the status drop-down is modelled by the index
  of the chosen option. It uses the corrected option value (below) rather than the value as
  written.
- App's `handleSearch`, `handleSort` and `handleBulkAction` are not modelled: their bodies are
  empty. So are the placeholder login and logout handlers.

## Findings

| source | as written | input that shows it | evidently intended | confidence | as-written member | corrected member |
|---|---|---|---|---|---|---|
| src/components/LeadProfile.tsx:296 | the option value is `opt.toLowerCase().replace(' ', '')`, which drops the space of a two-word label | a lead with status 'proposal sent' (or 'closed won', 'closed lost'): its options carry 'proposalsent', 'closedwon', 'closedlost', so none matches the status, and choosing one stores a value that is not a status literal | the value is the status literal, the lower-cased label with its space kept | high (not executed) | LeadProfile.OptionValuesAsWritten | LeadProfile.StatusOptionValuesAreLiterals |
| src/components/LeadsTable.tsx:171 | the purple badge is for `lead.status === 'proposal'`, which no status equals | a lead with status 'proposal sent' gets the grey badge of the closing stages | the purple badge is for 'proposal sent' | high (not executed) | LeadsTableView.PurpleBadgeUnreachable | LeadsTableView.StatusBadge |
