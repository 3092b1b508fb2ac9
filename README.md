# Time-and-attendance occurrences dashboard — a verified model

The dashboard reads every time-and-attendance occurrence ("ocorrência de
ponto") of the company's collaborators from a backend, in pages of 1000
rows. It also reads the table of active collaborators and gives every
occurrence its collaborator's base ("Sem Base" when there is none). Users
then work on that data in several ways:

- They filter it by date range, situation and collaborator. Those filters
  live in one shared filter state.
- They browse it in a paginated, sortable table of 25 rows per page.
- They see special occurrences in a pie chart: worked days off, overtime
  above six hours, and debit and credit on the same day.
- They export it. The filtered records can go to CSV or to a one-sheet
  Excel file. A chart's rows can be exported too. There is also a full
  Excel workbook: a data sheet, one sheet per non-empty category, roll-ups
  per collaborator and per base, and a summary.

The workbook's categories are:

- invalid markings;
- debit and credit on the same collaborator-day;
- overtime above six hours;
- worked days off;
- hour-bank debits without clock-in or clock-out;
- incompatible workdays, where the schedule code's hours disagree with the
  written schedule's hours beyond a tolerance.

The model covers the data pipeline and the user-interface state behind it,
one Dafny module per concern:

| module | what it holds |
|---|---|
| `Records` | an occurrence, JavaScript values and truthiness, durations `H:M:S` as exact decimal hours, a record as a backend object |
| `Strings`, `Seqs`, `Sorting` | `toLowerCase`, `trim`, `split`, `includes`, `parseInt`, filtering, subsequences, first-by-key de-duplication and a stable insertion sort |
| `Workday` | `parseTimeToMinutes`, `calculateTimeDifference`, `parseEscalaHours`, `parseDescricaoHorarioHours` and `isIncompatibleWorkday` |
| `Categories` | the category rules and the per-collaborator-day grouping behind "debit and credit on the same day" |
| `Workbook` | `reorderColumns`, the six category lists, the counts, the roll-ups, the summary and the workbook `exportTableToExcel` writes |
| `TableData` | the tag map of `useTableData`, the per-category split of the table and the pagination |
| `ChartData` | the filters of `useChartData` and `DataTable`, and the two chart groupings |
| `PieChart` | the pie chart's three slices |
| `Agreement` | the table tags, the workbook lists and the pie slices make the same decisions |
| `DataStore` | the paged reads, the base lookup and the data provider's state |
| `FilterState`, `SpecialFilters` | the two filter contexts |
| `Sidebar` | the sidebar's option lists, the collaborator search and its handlers |
| `OccurrencesTable` | the table's sort state and comparator, page navigation and export button |
| `CsvText`, `Export`, `ChartExport` | the CSV text and the `useExport` and `exportUtils` exports |

The model leaves out I/O, the clock and the backend. The current
timestamp is a parameter of every export. The backend is a value:
its rows, plus the number of the request that fails, if any. The sidebar
hook's records are a parameter too.

### Where the copies of one rule see different records

- `useTableData` tags "debit and credit on the same day" over all
  records, as its comment at `src/hooks/useTableData.js:20` says it means
  to. The pie chart (`src/components/PieChartOcorrenciasEspeciais.jsx:17-66`)
  decides it over the filtered records. So does the workbook, which
  `src/components/OccurrencesTable.jsx:56` hands the table's current data.
  The model keeps each copy on the records its code uses.
  `Agreement.CopiesAgree` states that the three copies agree when they
  are given the same records.
- The filter state never sets `matriculas` or `bases`. Those two filters
  exist only in `useChartData`, so for every reachable filter state the
  chart's filter and the table's filter select the same records
  (`FilterState.ContextFiltersAgree`).

## Model

| member | source | states |
|---|---|---|
| Records.ShowOrEmpty | src/hooks/useExport.js:70-83 | `${v \|\| ''}` is empty exactly when the value is falsy; a text prints as itself, and a non-zero number as digits that `parseInt` reads back as the number |
| Records.DecimalHours | src/hooks/useChartData.js:83-88 | the decimal hours of a well-formed duration are never negative |
| Records.DecimalHoursSeconds | src/utils/exportTableToExcel.js:19-21 | `horas + minutos/60 + segundos/3600` is exactly the duration's seconds divided by 3600 |
| Records.AboveSixHours | src/utils/exportTableToExcel.js:257-262 | "more than 6 hours" holds exactly when the duration exceeds 21600 seconds, so the threshold has no rounding error |
| Records.DurationParts | src/hooks/useChartData.js:84-85 | three non-empty digit runs joined by `:` form a well-formed duration, and `split(':')` gives back exactly those three runs |
| Records.OneAndAHalfHours | src/hooks/useChartData.js:84-86 | `1:30:00` is a well-formed duration of exactly 1.5 hours |
| Records.RecordHours | src/components/PieChartOcorrenciasEspeciais.jsx:73-77 | a record adds a non-negative amount to an hour sum, and nothing when it has no duration |
| Records.SumHours | src/utils/exportTableToExcel.js:13-25 | the hour sum of a list is never negative |
| Records.SumHoursAppend | src/utils/exportTableToExcel.js:17-22 | the hour sum of two lists put together is the sum of their hour sums |
| Workday.ParseTimeValue | src/utils/exportTableToExcel.js:28-44 | a value exists exactly when the trimmed text has at least two `:` parts and `parseInt` finds a number in each of the first two; it is then hours × 60 + minutes, any further parts ignored |
| Workday.ParseTwoParts | src/utils/exportTableToExcel.js:31-39 | a trimmed text with at least two `:` parts, the first two digit runs, reads as hours × 60 + minutes |
| Workday.ParseTimeNonNumeric | src/utils/exportTableToExcel.js:34-37 | a first or second part that does not start with white space, a sign or a digit gives no value (`"ab:30"`) |
| Workday.ClockWithSeconds | src/utils/exportTableToExcel.js:31-39 | `H:MM:SS` reads as H × 60 + MM, the seconds ignored (`"08:00:00"` is 480) |
| Workday.ParseTimeNoColon | src/utils/exportTableToExcel.js:32-33 | a text without `:` has fewer than two parts and no value |
| Workday.MinutesBetweenWithinDay | src/utils/exportTableToExcel.js:52-59 | for two clock times of one day the span lies in [0, 1440), equals (end − start) mod 1440, and is 0 for equal times |
| Workday.CalculateTimeDifference | src/utils/exportTableToExcel.js:46-60 | there is a difference exactly when both times read as times |
| Workday.EscalaNeedsTwoTimes | src/utils/exportTableToExcel.js:62-78 | a schedule code has hours only if it is non-empty and the part before its first `-` splits on `/` into exactly two pieces |
| Workday.ClockValue | src/utils/exportTableToExcel.js:28-44 | a clock time `H:MM` written with digits reads as H × 60 + MM |
| Workday.EscalaFromParts | src/utils/exportTableToExcel.js:62-78 | a schedule code whose time part is two times joined by `/` yields the span from the first time to the second |
| Workday.EscalaOfTimes | src/utils/exportTableToExcel.js:62-78 | `a/b`, alone or followed by `-…`, has the hours from time `a` to time `b` |
| Workday.ClockTokens | src/utils/exportTableToExcel.js:95-96 | every match of `\d{1,2}:\d{2}` is one or two digits, a colon and two digits |
| Workday.ClockTokenParses | src/utils/exportTableToExcel.js:95-108 | every matched token reads as a time of at most 99:99 |
| Workday.DescricaoShape | src/utils/exportTableToExcel.js:80-117 | the written schedule has hours exactly when it is non-empty, names neither `folga` nor `dsr`, and holds 2 or 4 clock times; the hours are one span, or the sum of the morning and afternoon spans |
| Workday.SixHourShiftTolerance | src/utils/exportTableToExcel.js:136-144 | a 360-minute shift is compatible with exactly 345, 360 or 375 described minutes |
| Workday.LongShiftTolerance | src/utils/exportTableToExcel.js:146-149 | a shift of 480 minutes or more is compatible with exactly its length or one hour either way |
| Workday.OtherShiftsExact | src/utils/exportTableToExcel.js:129-151 | any other shift length is compatible only with its exact length |
| Workday.IncompatibleNeedsBothValues | src/utils/exportTableToExcel.js:119-127 | a record is flagged only when both sides have hours and they differ, and never when either side has none |
| Workday.EscalaExample | src/utils/exportTableToExcel.js:62-78 | the code's own example `22:00/04:00-6X1-OP-180` is a 360-minute shift across midnight |
| Workday.ToleranceExamples | src/utils/exportTableToExcel.js:129-151 | concrete cases: 360/360 and 480/420 pass; 400/370 and 420/360 are flagged |
| Categories.HorasExtrasInSeconds | src/utils/exportTableToExcel.js:253-264 | a record is overtime above six hours exactly when it is a credit with a duration above 21600 seconds |
| Categories.HorasExtrasNeedsDuration | src/utils/exportTableToExcel.js:257 | a record without a duration is never overtime and adds no hours |
| Categories.CalcularTotais | src/utils/exportTableToExcel.js:13-25 | the totals are the number of records and the sum of their decimal hours |
| Categories.SumHoursNoDurations | src/utils/exportTableToExcel.js:17-22 | records without durations sum to zero hours |
| Categories.FindGroup | src/utils/exportTableToExcel.js:214 | the group lookup finds the group with the key, or reports that no group has it |
| Categories.DayItems | src/utils/exportTableToExcel.js:210-231 | a collaborator-day's items are exactly the records with that key |
| Categories.DescribesAbsorb | src/utils/exportTableToExcel.js:222-229 | adding a record to its own group keeps the group's flags and items faithful to the records seen |
| Categories.AddNewGroup | src/utils/exportTableToExcel.js:214-221 | creating a group for a new key keeps the grouping faithful |
| Categories.AddExistingGroup | src/utils/exportTableToExcel.js:222-230 | adding a record to an existing group keeps the grouping faithful |
| Categories.DayGroupsFacts | src/utils/exportTableToExcel.js:210-231 | the groups have distinct keys; every record has a group; each group's flags say whether its day has a credit or a debit; each group holds exactly its day's records |
| Categories.GroupByDay | src/utils/exportTableToExcel.js:210-231 | the grouping loop builds the groups of the records (the specification proved by `DayGroupsFacts`) |
| Categories.CollectFlagged | src/utils/exportTableToExcel.js:233-238 | the loop collects the items of the flagged groups in group order |
| Categories.FlaggedItemsMembers | src/utils/exportTableToExcel.js:233-238 | a record is collected exactly when it is in some group with both flags |
| Categories.DebitoCreditoMembers | src/utils/exportTableToExcel.js:210-238 | a record is on the "Débito e Crédito" list exactly when it is one of the records and its collaborator has a credit and a debit on its day |
| Categories.DayGroupsPartition | src/utils/exportTableToExcel.js:210-231 | every record lands in exactly one group: the groups' items are a permutation of the records |
| Categories.DebitoCreditoWithin | src/utils/exportTableToExcel.js:233-238 | no record appears on the "Débito e Crédito" list more often than among the records |
| Workbook.ReorderedKeys | src/utils/exportTableToExcel.js:155-174 | a reordered row has the priority columns it owns first, in priority order, then its other keys in their own order |
| Workbook.ReorderedEntries | src/utils/exportTableToExcel.js:155-174 | reordering keeps every key/value pair of a row and adds none |
| Workbook.CopyColumns | src/utils/exportTableToExcel.js:161-165 | the first loop copies the priority columns the row has, in priority order |
| Workbook.ReorderRow | src/utils/exportTableToExcel.js:158-172 | one row is rebuilt as the priority columns followed by the others |
| Workbook.ReorderColumns | src/utils/exportTableToExcel.js:155-174 | every row is rebuilt that way, the number of rows unchanged |
| Workbook.CentsNearest | src/utils/exportTableToExcel.js:339-340 | the hundredths printed for `(m/60).toFixed(2)` are the unique nearest two-decimal number to m/60 |
| Workbook.Fixed2Digits | src/utils/exportTableToExcel.js:339-340 | the two-decimal text is integer digits, a point and two digits, and reads back as the rounded hours |
| Workbook.DedupIncompatibilidades | src/utils/exportTableToExcel.js:322-331 | the `seen` filter keeps the first incompatible record of every collaborator-day |
| Workbook.DedupFacts | src/utils/exportTableToExcel.js:322-331 | the de-duplicated list is a subsequence with distinct keys, covers every key, and holds the first record of each key |
| Workbook.ContarPor | src/utils/exportTableToExcel.js:368-374 | a key is counted exactly when some record has it, and its count is the number of such records |
| Workbook.CountKeyPositive | src/utils/exportTableToExcel.js:368-374 | a key's count is positive exactly when some record has that key |
| Workbook.CollectColaboradores | src/utils/exportTableToExcel.js:356-366 | `colaboradoresMap` holds one entry per distinct id, taken from its first record |
| Workbook.CollectBases | src/utils/exportTableToExcel.js:415-418 | `basesSet` holds every `base \|\| 'Sem Base'` once, in order of first appearance |
| Workbook.ContarTodas | src/utils/exportTableToExcel.js:376-381 | the six counts of each key are the counts on the six category lists |
| Workbook.OcorrenciasPorColaborador | src/utils/exportTableToExcel.js:383-407 | the per-collaborator roll-up: one row per collaborator, sorted by total |
| Workbook.OcorrenciasPorBase | src/utils/exportTableToExcel.js:436-458 | the per-base roll-up: one row per base, sorted by total |
| Workbook.ColaboradoresIds | src/utils/exportTableToExcel.js:356-366 | the roll-up rows' ids are the records' ids, each once |
| Workbook.ColabRowsFacts | src/utils/exportTableToExcel.js:383-407 | the collaborator rows are ordered by decreasing total, one per distinct id, each with its six counts and their sum as total |
| Workbook.BasesKeys | src/utils/exportTableToExcel.js:415-418 | the base rows' bases are the records' bases (missing shown as `Sem Base`), each once |
| Workbook.BaseRowsFacts | src/utils/exportTableToExcel.js:436-458 | the base rows are ordered by decreasing total, one per distinct base, each with its six counts and their sum as total |
| Workbook.AddCategory | src/utils/exportTableToExcel.js:192-353 | a category block appends its sheet and its summary row exactly when its list is non-empty |
| Workbook.ComputeLists | src/utils/exportTableToExcel.js:192-317 | the six category lists are computed from all records |
| Workbook.CategoryBlocks | src/utils/exportTableToExcel.js:197-353 | the six category blocks add the category sheets and summary rows in the export's order |
| Workbook.ExportTableToExcel | src/utils/exportTableToExcel.js:4-472 | the export writes the workbook of the records, or nothing (and no file) for an empty list; the file is `tabela_ocorrencias_<timestamp>.xlsx` |
| Workbook.ListsMembers | src/utils/exportTableToExcel.js:192-317 | each list holds exactly the records its rule selects; the debit/credit rule looks at the record's whole collaborator-day |
| Workbook.ResumoDescribesSheets | src/utils/exportTableToExcel.js:197-353 | the summary has one row per category sheet, in the same order, each naming its sheet and counting the records the sheet shows |
| Workbook.ResumoHours | src/utils/exportTableToExcel.js:347-352 | a category has a summary row exactly when its list is non-empty; that row's count and `Total de Horas` are the count and hour sum of the records its sheet shows, which for the incompatibilities is the first record of each collaborator-day |
| Workbook.SheetNameInjective | src/utils/exportTableToExcel.js:199-345 | the six category sheet names are distinct |
| Workbook.CategorySheetPresent | src/utils/exportTableToExcel.js:197-345 | a category has a sheet exactly when its list is non-empty |
| Workbook.RollupsNonEmpty | src/utils/exportTableToExcel.js:409-462 | with records, both roll-up sheets are written |
| Workbook.WorkbookShape | src/utils/exportTableToExcel.js:4-467 | no workbook exactly for no records; otherwise the data sheet, the non-empty categories, the two roll-ups and the summary, in that order |
| Workbook.IncompatibilidadeSheet | src/utils/exportTableToExcel.js:317-353 | the incompatibility sheet holds each collaborator-day once, by its first record, while the roll-ups count every incompatible record |
| TableData.TagMapOf | src/hooks/useTableData.js:21-88 | no record id is mapped to an empty tag list |
| TableData.PushAllTags | src/hooks/useTableData.js:27-85 | tagging a list appends the tag to each id once per record of that id |
| TableData.TagMapTags | src/hooks/useTableData.js:21-88 | an id's tags are, in order, one day-off tag, one overtime tag and one debit/credit tag per record of the id that qualifies |
| TableData.TagPass | src/hooks/useTableData.js:27-51 | one tagging pass tags exactly the records its rule selects |
| TableData.TagGroupItems | src/hooks/useTableData.js:77-81 | the items of a group are tagged in order |
| TableData.TagFlaggedGroups | src/hooks/useTableData.js:75-85 | the items of every flagged collaborator-day are tagged as debit/credit |
| TableData.CategorizarEspeciais | src/hooks/useTableData.js:21-88 | the method builds the tag map of all records |
| TableData.TagMembership | src/hooks/useTableData.js:21-88 | an id carries a tag exactly when some record with that id qualifies for it |
| TableData.DataByCategoryOf | src/hooks/useTableData.js:105-127 | each category list holds the table's records whose id carries its tag, in table order |
| TableData.TaggedAgrees | src/hooks/useTableData.js:113-123 | with unique record ids, a record carries a tag exactly when it qualifies for that category over all records |
| TableData.DataByCategoryAgrees | src/hooks/useTableData.js:105-127 | the category lists of the filtered table equal the table filtered by each category's rule, debit/credit judged over all records |
| TableData.PaginateWindow | src/hooks/useTableData.js:96-100 | a page holds at most 25 records, starting at (page − 1) × 25 |
| TableData.RecordPage | src/hooks/useTableData.js:96-102 | every record is on exactly one valid page, at position i mod 25 of page i div 25 + 1 |
| TableData.TotalPagesBounds | src/hooks/useTableData.js:102 | the total pages cover all records with no empty last page, and are zero exactly for no records |
| TableData.PageExample | src/hooks/useTableData.js:96-102 | 57 records make 3 pages, the last with 7 records |
| TableData.TablePagination.OnFiltersChanged | src/hooks/useTableData.js:16-18 | a filter change returns the table to page 1 |
| TableData.TablePagination.SetCurrentPage | src/hooks/useTableData.js:12 | React's `setCurrentPage` setter, which the page buttons call: the page becomes the given value |
| TableData.FirstPageAfterReset | src/hooks/useTableData.js:16-18 | after a reset the table shows the first 25 records |
| ChartData.ChartFilteredFacts | src/hooks/useChartData.js:11-61 | the chart's filtered data is a subsequence of the records and holds exactly the records every filter keeps; filtering again changes nothing |
| ChartData.TableFilteredFacts | src/components/DataTable.jsx:11-40 | the table's filtered data is a subsequence of the records and holds exactly the records the three filters keep; filtering again changes nothing |
| ChartData.DateBoundsInclusive | src/hooks/useChartData.js:16-26 | both date bounds are inclusive |
| ChartData.MatriculaTokensFacts | src/hooks/useChartData.js:40-43 | the matrícula tokens are exactly the non-empty trimmed comma-separated parts |
| ChartData.SingleMatricula | src/hooks/useChartData.js:39-52 | one matrícula keeps the records whose id contains it, ignoring case |
| ChartData.InactiveFiltersKeepAll | src/hooks/useChartData.js:14-60 | with no filter active every record is kept, in order |
| ChartData.ChartAgreesWithTable | src/hooks/useChartData.js:10-61 | without matrícula and base filters, the chart and the table filter the same way |
| ChartData.Find | src/hooks/useChartData.js:72 | the bucket lookup finds the bucket with the key, or reports that none has it |
| ChartData.GroupBy | src/hooks/useChartData.js:67-89 | the grouping loop builds the tally of the records by key |
| ChartData.TallyKeys | src/hooks/useChartData.js:67-89 | there is one bucket per distinct key of the records |
| ChartData.TallyBuckets | src/hooks/useChartData.js:69-88 | each bucket counts the records of its key and sums their hours |
| ChartData.TallyTotal | src/hooks/useChartData.js:80 | the bucket counts add up to the number of records |
| ChartData.SortedTally | src/hooks/useChartData.js:92 | sorting the buckets keeps them a faithful grouping of the records |
| ChartData.DataGroupedBySituacao | src/hooks/useChartData.js:64-93 | the situation grouping, sorted by count |
| ChartData.GroupedBySituacaoFacts | src/hooks/useChartData.js:64-93 | one bucket per situation (`Sem Situação` for none) with its records' count and hours, by decreasing count, none for no records |
| ChartData.ByDatePreorder | src/hooks/useChartData.js:127 | the date order is a total preorder |
| ChartData.DataGroupedByDateAndSituacao | src/hooks/useChartData.js:96-128 | the date-and-situation grouping, sorted by date |
| ChartData.GroupedByDateFacts | src/hooks/useChartData.js:96-128 | one bucket per (date, situation) pair with its count and hours, by date, none for no records |
| PieChart.ComputeSlice | src/components/PieChartOcorrenciasEspeciais.jsx:16-81 | one category's slice: its records' count and decimal hours, under its fixed name and colour |
| PieChart.ProcessedData | src/components/PieChartOcorrenciasEspeciais.jsx:13-102 | the method computes the pie chart's slices: the three categories in order, the empty ones dropped, none for no records |
| PieChart.CategoryMembers | src/components/PieChartOcorrenciasEspeciais.jsx:17-66 | each slice's records are exactly the filtered records of its rule; debit/credit is judged over the filtered records |
| PieChart.PieDataOrder | src/components/PieChartOcorrenciasEspeciais.jsx:83-99 | the slices keep their fixed order and only non-empty ones remain |
| PieChart.NameInjective | src/components/PieChartOcorrenciasEspeciais.jsx:85-95 | the three slice names are distinct |
| PieChart.SliceFor | src/components/PieChartOcorrenciasEspeciais.jsx:83-98 | a slice named for a category is that category's slice |
| PieChart.PieDataEmpty | src/components/PieChartOcorrenciasEspeciais.jsx:14 | no filtered records give no slices |
| PieChart.PieDataSlice | src/components/PieChartOcorrenciasEspeciais.jsx:68-99 | a category has a slice exactly when it has records, and the slice counts them and sums their hours |
| Agreement.CopiesAgree | src/hooks/useTableData.js:21-88 | given the same records with unique ids, the table tags, the workbook lists and the pie slices select the same records for each of the three categories |
| DataStore.Request | src/contexts/DataContext.jsx:27-32 | a request fails exactly when it is the failing one; otherwise it returns the rows of its inclusive range, cut at the end of the table |
| DataStore.RowsRead | src/contexts/DataContext.jsx:21-45 | a failed read keeps exactly the full pages before the failing request |
| DataStore.PagesNeededBounds | src/contexts/DataContext.jsx:38-44 | a complete read takes one request per full page plus one short or empty one |
| DataStore.FetchAll | src/contexts/DataContext.jsx:21-70 | the paged read fails exactly when a request it reaches fails, returns all rows or the full pages before the failure, and counts its requests |
| DataStore.FourRequests | src/contexts/DataContext.jsx:26-45 | 3001 rows take four requests |
| DataStore.BuildAtivosMap | src/contexts/DataContext.jsx:73-74 | the loop builds the id-to-base lookup of the active collaborators |
| DataStore.AtivosMapKeys | src/contexts/DataContext.jsx:73-74 | the lookup holds exactly the ids of the table |
| DataStore.AtivosMapLastWins | src/contexts/DataContext.jsx:74 | each id holds the base of its last row |
| DataStore.BaseFor | src/contexts/DataContext.jsx:79 | the base is the id's non-empty base, otherwise `Sem Base`, never empty |
| DataStore.EnrichedBase | src/contexts/DataContext.jsx:77-80 | enrichment keeps the records, their order and all fields but the base, which becomes the base of the id's last active row, or `Sem Base` |
| DataStore.ErrorMessage | src/contexts/DataContext.jsx:85 | the error message is the failure's message, or `Erro ao carregar dados` when it has none |
| DataStore.DataProvider.constructor | src/contexts/DataContext.jsx:7-9 | the provider starts with no data, loading, without error |
| DataStore.DataProvider.FetchData | src/contexts/DataContext.jsx:15-89 | loading ends; a failed occurrence read keeps the data and records the error; otherwise the data is the enriched occurrences, with the bases the collaborator read got to before any failure |
| FilterState.FilterContext.Current | src/contexts/FilterContext.jsx:6-10 | the filters carry the context's three fields and never a matrícula or base filter |
| FilterState.FilterContext.constructor | src/contexts/FilterContext.jsx:6-10 | the filters start cleared |
| FilterState.FilterContext.UpdateDateRange | src/contexts/FilterContext.jsx:12-17 | the date range is replaced; the other filters stay |
| FilterState.FilterContext.UpdateSituacoes | src/contexts/FilterContext.jsx:19-24 | the situations are replaced; the other filters stay |
| FilterState.FilterContext.UpdateColaboradores | src/contexts/FilterContext.jsx:26-31 | the collaborators are replaced; the other filters stay |
| FilterState.FilterContext.ClearFilters | src/contexts/FilterContext.jsx:33-39 | the filters become cleared; clearing twice is clearing once |
| FilterState.ContextFiltersAgree | src/contexts/FilterContext.jsx:6-39 | for every filter state the context can hold, chart and table select the same records |
| FilterState.ClearedKeepsAll | src/contexts/FilterContext.jsx:33-39 | cleared filters keep every record |
| SpecialFilters.SpecialFilterContext.constructor | src/contexts/SpecialFilterContext.jsx:6 | nothing is selected at first |
| SpecialFilters.SpecialFilterContext.ToggleEspecial | src/contexts/SpecialFilterContext.jsx:8-14 | toggling flips the item's membership, leaves the rest, and keeps the selection free of duplicates |
| SpecialFilters.SpecialFilterContext.ClearEspeciais | src/contexts/SpecialFilterContext.jsx:16-18 | clearing empties the selection |
| SpecialFilters.ToggleNoDupIf | src/contexts/SpecialFilterContext.jsx:9-13 | a toggle keeps a duplicate-free selection duplicate-free |
| SpecialFilters.ToggleMembership | src/contexts/SpecialFilterContext.jsx:9-13 | a toggle flips the item's membership and keeps every other item's |
| SpecialFilters.ToggledNoDup | src/contexts/SpecialFilterContext.jsx:6-14 | any sequence of toggles from the start leaves no duplicate |
| SpecialFilters.ToggledParity | src/contexts/SpecialFilterContext.jsx:6-14 | an item is selected exactly when it was toggled an odd number of times |
| Seqs.ToggleTwice | src/components/Sidebar.jsx:35-40 | toggling the same item twice restores the selection it was built from |
| Sidebar.SituacaoValues | src/components/Sidebar.jsx:19 | the situation options exclude the empty situation |
| Sidebar.SituacaoValuesMembers | src/components/Sidebar.jsx:19 | a situation value is listed exactly when some record has it and it is non-empty |
| Sidebar.SituacoesListFacts | src/components/Sidebar.jsx:19-20 | the situation options are exactly the non-empty situations of the records, each once, in ascending UTF-16 code-unit order, the order the default `sort()` compares by |
| Strings.Utf16Injective | src/components/Sidebar.jsx:20 | the UTF-16 encoding, one code unit up to U+FFFF and a surrogate pair above, tells different texts apart |
| Strings.Utf16LeOrder | src/components/Sidebar.jsx:20 | the code-unit order of the default `sort()` is total, transitive and antisymmetric on texts |
| Strings.Utf16LeBmp | src/components/Sidebar.jsx:20 | on texts within U+FFFF the code-unit order equals the code-point order `StrLe` |
| Strings.Utf16LeAstral | src/components/Sidebar.jsx:20 | above U+FFFF the two orders part: U+1F600 sorts before U+FFFD by code units and after it by code points |
| Sorting.SortStable | src/hooks/useChartData.js:92 | elements the comparator ties keep their input order, as `Array.prototype.sort` guarantees |
| Sorting.SortedTiesUnique | src/hooks/useChartData.js:92 | two ordered sequences with the same elements in each class of tied elements are equal |
| Sorting.SortDetermined | src/hooks/useChartData.js:92 | any ordered arrangement that keeps tied elements in input order is `Sort`'s result, so the model gives what a stable engine sort gives |
| Sidebar.ColaboradorPairsMembers | src/components/Sidebar.jsx:23-26 | a pair is listed exactly when some record has that id and that name, both non-empty |
| Sidebar.ColaboradoresListFacts | src/components/Sidebar.jsx:23-27 | the collaborator options are exactly the records' id/name pairs with both present, each distinct pair once, sorted by name |
| Sidebar.SearchFacts | src/components/Sidebar.jsx:49-51 | the search keeps, in order, exactly the options whose name contains the text ignoring case, and all of them for an empty text |
| Sidebar.EmptyToNull | src/components/Sidebar.jsx:31-33 | an empty date input becomes no bound, any other stays as typed |
| Sidebar.SidebarState.constructor | src/components/Sidebar.jsx:9-14 | the sidebar starts with empty inputs and no options |
| Sidebar.SidebarState.LoadOptions | src/components/Sidebar.jsx:16-29 | with records the options are rebuilt from them; without records nothing changes; the inputs are never touched |
| Sidebar.SidebarState.SetStartDate | src/components/Sidebar.jsx:75 | the start date input changes and nothing else |
| Sidebar.SidebarState.SetEndDate | src/components/Sidebar.jsx:83 | the end date input changes and nothing else |
| Sidebar.SidebarState.SetSearchColaborador | src/components/Sidebar.jsx:121 | the search input changes and nothing else |
| Sidebar.SidebarState.HandleDateChange | src/components/Sidebar.jsx:31-33 | the filter's date range becomes the two inputs, empty ones as no bound; the other filters stay |
| Sidebar.SidebarState.ToggleSituacao | src/components/Sidebar.jsx:35-40 | the situation is toggled in the filter; the other filters stay |
| Sidebar.SidebarState.ToggleColaborador | src/components/Sidebar.jsx:42-47 | the collaborator is toggled in the filter; the other filters stay |
| OccurrencesTable.NextSort | src/components/OccurrencesTable.jsx:22-28 | the column becomes the sort key, descending exactly when it was already the key ascending |
| OccurrencesTable.NextSortCycle | src/components/OccurrencesTable.jsx:22-28 | clicking a column alternates its direction with period two; a new column always starts ascending |
| OccurrencesTable.LocaleCompare | src/components/OccurrencesTable.jsx:40-43 | the text comparison is zero exactly for equal texts and negative exactly when the first text comes first |
| OccurrencesTable.Compare | src/components/OccurrencesTable.jsx:33-49 | an empty first cell sorts after and an empty second cell before, whatever the direction; the result is −1, 0 or 1 |
| OccurrencesTable.CompareAgrees | src/components/OccurrencesTable.jsx:33-51 | the comparator as written agrees with the order "empty cells last, then by value in the direction", except between two empty cells, between two equal numbers and between a number and a text |
| OccurrencesTable.CompareInconsistent | src/components/OccurrencesTable.jsx:37-48 | two empty cells each compare greater than the other, and two equal numbers each compare less than the other |
| OccurrencesTable.ValueLeTotal | src/components/OccurrencesTable.jsx:33-51 | the intended cell order relates any two cells |
| OccurrencesTable.ValueLeTransitive | src/components/OccurrencesTable.jsx:33-51 | the intended cell order is transitive |
| OccurrencesTable.ValueLePreorder | src/components/OccurrencesTable.jsx:33-51 | the record order by a column is a total preorder |
| OccurrencesTable.SortedDataFacts | src/components/OccurrencesTable.jsx:30-52 | the sorted page is a permutation of the page; unchanged without a sort key; otherwise ordered by the column with empty cells last |
| OccurrencesTable.NavigationInRange | src/components/OccurrencesTable.jsx:165-187 | page navigation stays within 1 .. total pages, and previous and next undo each other away from the ends |
| OccurrencesTable.GuardsFacts | src/components/OccurrencesTable.jsx:87 | the pagination shows exactly when there are more than 25 records, and the export button is disabled exactly when the export would write nothing |
| OccurrencesTable.OccurrencesTableState.constructor | src/components/OccurrencesTable.jsx:19 | the table starts unsorted, ascending |
| OccurrencesTable.OccurrencesTableState.HandleSort | src/components/OccurrencesTable.jsx:22-28 | clicking a column sets the next sort state |
| OccurrencesTable.OccurrencesTableState.GoFirst | src/components/OccurrencesTable.jsx:165 | the first-page button goes to page 1 |
| OccurrencesTable.OccurrencesTableState.GoPrevious | src/components/OccurrencesTable.jsx:172 | the previous-page button goes back one page, not below 1 |
| OccurrencesTable.OccurrencesTableState.GoNext | src/components/OccurrencesTable.jsx:179 | the next-page button goes forward one page, not beyond the last |
| OccurrencesTable.OccurrencesTableState.GoLast | src/components/OccurrencesTable.jsx:186 | the last-page button goes to the last page |
| OccurrencesTable.OccurrencesTableState.HandleExport | src/components/OccurrencesTable.jsx:55-57 | the button exports the workbook of the table's records, and a file is written exactly when the button is enabled |
| CsvText.QuoteFacts | src/hooks/useExport.js:85-88 | a cell is its text between two double quotes, a falsy value giving `""`; quotes inside are not escaped |
| CsvText.CsvLineCells | src/hooks/useExport.js:85-88 | a line of comma- and newline-free cells splits back at commas into its quoted cells, one per cell, and holds no newline |
| CsvText.CsvContentLines | src/hooks/useExport.js:85-88 | the content splits back at newlines into the header line and the record lines |
| Export.GetFilteredData | src/hooks/useExport.js:13-42 | no data gives no records; otherwise a subsequence holding exactly the records the table's filters keep |
| Export.HeadersPlain | src/hooks/useExport.js:55-68 | no header contains a comma or a newline |
| Export.OcorrenciasCsvShape | src/hooks/useExport.js:55-88 | for plain records the CSV has the header line and one line per record, each splitting into its twelve quoted cells |
| Export.ExcelRowMatchesCsv | src/hooks/useExport.js:121-134 | an Excel row has the CSV headers as keys, and its values print as the same CSV line as the record |
| Export.Exporter.constructor | src/hooks/useExport.js:8 | the exporter starts idle |
| Export.Exporter.ExportToCsv | src/hooks/useExport.js:44-108 | the export ends idle and writes no file exactly when no record passes the filters; otherwise `ocorrencias_ponto_<timestamp>.csv` with the CSV of the filtered records |
| Export.Exporter.ExportToExcel | src/hooks/useExport.js:110-150 | the export ends idle and writes no file exactly when no record passes the filters; otherwise `ocorrencias_ponto_<timestamp>.xlsx` with one row per filtered record in the sheet `Ocorrências` |
| ChartExport.ExportChartToCsv | src/utils/exportUtils.js:4-33 | no file exactly for missing or empty data; otherwise the chart's CSV, named `<filename>_<timestamp>.csv` |
| ChartExport.ExportChartToExcel | src/utils/exportUtils.js:35-49 | no file exactly for missing or empty data; otherwise the rows in the given sheet (`Dados` by default), named `<filename>_<timestamp>.xlsx` |
| ChartExport.ChartCsvShape | src/utils/exportUtils.js:11-19 | the chart CSV has a header line from the first row's keys and one line per row, whose cells are that row's values for those keys, quoted |

## Left out

- Network, storage and files: the backend client, the `xlsx` library, `Blob`, download links, `alert` and console logging are not modelled. An export returns the file it would write, with its name, CSV text or sheet rows.
- The clock: the `yyyy-MM-dd_HH-mm-ss` timestamp is a parameter.
- `src/hooks/useSupabase.js`, `src/contexts/AuthContext.jsx`, the login page, the layout, the header, the loading screen and the D3 bar and line charts are not part of this model. The Sidebar's records, which come from `useSupabase`, are a parameter.
- React scheduling: every `setState` happens at once, and the `loading = true` moment inside a read is not observable. `refresh` is the same operation as `fetchData`.
- Records.DecimalHours: uses exact rational arithmetic where JavaScript adds floating-point numbers. Durations are well formed by type (digit runs `H:M:S`), so `Number` never yields `NaN`.
- Workbook.Fixed2Digits: models `toFixed(2)` on whole numbers of minutes with round-half-up on exact values. The summary's hour totals are sums of real numbers, shown as reals, not formatted.
- Dates are `yyyy-mm-dd` texts compared in code-point order (`Strings.StrLe`). For well-formed dates that is calendar order, so `parseISO` and its time zone are not modelled.
- Strings.ToLower: lowers ASCII and Latin-1 capitals only.
- OccurrencesTable.LocaleCompare: uses code-point order, not the collation of `localeCompare`.
- Sidebar.ColaboradoresListFacts: sorts names in code-point order, not by the collation of `localeCompare`.
- Strings.ParseInt: results are unbounded integers. JavaScript's `parseInt` returns a double, which loses precision past 2^53; a clock field with a digit run longer than 15 digits is read exactly here where JavaScript would round it.
- The removal of ` as ` in `parseDescricaoHorarioHours` is not modelled. Removing it cannot add, remove or change a `\d{1,2}:\d{2}` match, because the text it removes holds no digit or colon.
- Composite keys `${a}|${b}` are pairs. Two different pairs that print alike when a part contains `|` are not modelled.
- Objects keep insertion order. JavaScript's ordering of integer-like keys before other keys is not modelled.
- OccurrencesTable.Compare: a number `aVal` against a text `bVal` gives −1 (the number first), where JavaScript's `>`/`<` would convert the text to a number; in descending order a text `aVal` against a number `bVal` throws a `TypeError` in the source (`localeCompare` called on a number), and the model compares the number's text instead. Neither case arises, because the four sortable columns hold only texts or empty cells.
- OccurrencesTable.SortedDataFacts: the sort uses the intended order (empty cells last, numbers before texts). The comparator as written is not a consistent order between two empty cells, between two equal numbers (`aVal > bVal ? 1 : -1` gives −1 both ways), or between a number and a text, so the order `Array.prototype.sort` gives there is left unstated (`CompareAgrees` and `CompareInconsistent` name those cases). No column of the table holds numbers today, so the equal-numbers case does not arise.
- DataStore.Request: a batch that is `null` without an error is treated as an empty batch. The backend's ordering (`data` then `id_registro`, both descending) is the order of the given rows.
- Sidebar.SidebarState.LoadOptions: the "Limpar filtros" button calls the filter context's `clearFilters`, which does not reset the sidebar's own date or search inputs. The model keeps them, as the code does.
- The `try`/`catch` around the exports only logs and alerts, so its error paths are not modelled.
