# Trial-design layout kernel, in Dafny

This project models the layout kernel of the trial-design renderer. The
renderer takes a clinical-trial schedule and draws it as an SVG diagram.
A trial is a list of periods, or cycles. Each period covers `duration`
days from a signed day `start`, and there is no day 0. Each period holds
procedures, administrations and intervals.

The kernel decides:

- which column each day falls in;
- which days a day string such as `"1-3, 5"` names;
- how hour offsets of 24 h or more spill onto the following days, and
  how they are gathered back;
- which days bound a run of activity, which drives the auto-compressed
  grid;
- how wide each day column is, and where each day starts, ends and has
  its centre;
- what each row draws: procedure symbols, dose labels, interval boxes,
  and the placement of the periods side by side.

The current release is `td/td.py`; the previous release is `td.py`. Where
the two differ, both are modelled: the traversal key order, the
`item_names` lookup and the input checks.

Each module follows one part of the program:

| module | file | what it models |
|---|---|---|
| `Schema` | schema.dfy | periods, activities, footnotes and the exceptions the code raises |
| `Lists` | lists.dfy | the library calls the code relies on: `dict.fromkeys` de-duplication and `list.sort` |
| `DayList` | days.dfy | `decode_daylist` (with a character-level scanner for the day-string pattern) and `day_index` |
| `Extract` | extract.dfy | `iterate_over_procedures` and the write-at-column plans every extractor builds |
| `Extractors` | extractors.dfy | `extract_procedure`, `extract_labels`, `extract_field`, `day_labels`, `day_shadings`, `procedure_symbols` |
| `Times` | times.dfy | `normalize_procedure` and `unnormalize_procedure` |
| `Footnotes` | footnotes.dfy | `extract_footnotes` and `footnote_list` |
| `Names` | names.dfy | `item_names` in both releases |
| `Runs` | runs.dfy | `extract_start_end` and `activity_days` |
| `Layout` | layout.dfy | the three day-width strategies of `render_td`, `period_width` and the day geometry |
| `Rows` | rows.dfy | the decisions of `render_procedure`, `render_dose_graph`, `render_interval`, `add_output` and `render_periods` |
| `Validate` | validate.dfy | the `assert_*_format` checks of both releases |

Some parts of the source change state step by step: loops that append,
arrays written by index, and sorting in place. Each becomes a Dafny
`method` with loop invariants. Its `ensures` ties the result to a
specification function. The properties are then proved as lemmas about
those functions. The other parts are pure functions, and their contracts
are stated directly.

Where the code departs from its own comments or from the checks of the
previous release, this model follows the code. There are three known
cases:

- **Day strings never give negative days.** The doc comment at
  `td/td.py:55` says `"-1"` denotes day -1. The pattern skips the minus
  sign, so the string gives day 1 (`DayList.DecodeMinusOneExample`).
- **Day 0 is accepted.** The comment "correct for absent day 0" at
  `td/td.py:321` says a period starting before day 0 has no day 0. The
  code still accepts day 0 there and gives it the column of day 1
  (`DayList.DayZeroAliasesDayOne`).
- **A duration below one day passes the current check.** The previous
  release rejects a duration below 1 (`td.py:18-21`). The current release
  checks only that the duration is an integer (`td/td.py:24`,
  `Validate.ZeroDurationPeriod`).

## Model

| member | source | states |
|---|---|---|
| DayList.Inclusive | td/td.py:77 | `range(a, b + 1)`: b - a + 1 consecutive days from a, none when a > b |
| DayList.DecodeDaylist | td/td.py:62-79 | the loop appends the days of every element, in input order, a lone element being wrapped as a list |
| DayList.AppendMatches | td/td.py:72-78 | the loop over the matches of one string appends each lone day or each day of each range |
| DayList.AppendRange | td/td.py:77-78 | the innermost loop appends the days of an inclusive range |
| DayList.DecodedConcat | td/td.py:65-78 | the output follows input order and keeps duplicates: decoding a concatenation is concatenating the decodings |
| DayList.IntegersPassThrough | td/td.py:66-67 | integer elements pass through unchanged, one day each, in order |
| DayList.StringDaysNonNegative | td/td.py:68-75 | a string never yields a negative day |
| DayList.MatchesRender | td/td.py:69-71 | scanning the text "a-b, c, ..." of a list of matches finds those matches again |
| DayList.DecodeRendered | td/td.py:68-78 | every string written as "a-b, c, ..." decodes to exactly the days it names |
| DayList.DecodeRangeExample | td/td.py:52-79 | `["1-3, 5"]` decodes to 1, 2, 3, 5 |
| DayList.DecodeMinusOneExample | td/td.py:55-75 | `"-1"` decodes to day 1 |
| DayList.DayIndex | td/td.py:317-324 | a column index is below the duration; the only failure is IndexError |
| DayList.DayIndexSigns | td/td.py:319-323 | all four sign combinations: `day - start`, one less exactly when start < 0 < day, IndexError outside [0, duration) |
| DayList.DayIndexRoundTrip | td/td.py:317-324 | every column is the index of exactly the day DayOf gives it, never day 0 when the period starts before day 0 |
| DayList.DayOfRoundTrip | td/td.py:317-324 | every accepted day other than an aliased day 0 is the day of its column |
| DayList.DayZeroAliasesDayOne | td/td.py:319-321 | in a period starting before day 0, day 0 resolves as day 1 |
| DayList.DayIndexExample | td/td.py:317-324 | start -2, duration 5: days -2, -1, 1, 2, 3 are columns 0..4, and -3 and 4 raise |
| Extract.SelectMembers | td/td.py:119-121 | the selected activities are exactly those with the caption |
| Extract.MatchingMembers | td/td.py:117-121 | the traversal visits exactly the activities with the caption under one of its keys |
| Extract.IterateOverProcedures | td/td.py:105-122 | the closure of each matching activity runs on the shared list in traversal order, and the first exception ends it |
| Extract.WriteSteps | td/td.py:297-298 | the closure body writes the values of its days at their columns in the array, or stops at the first failure |
| Extract.Repeat | td/td.py:294 | `[x] * n` is n copies of x |
| Extract.Filled | td/td.py:294 | a fresh array holding n copies of x |
| Extract.ApplyLength | td/td.py:294-300 | the extracted list keeps the length of the initial list |
| Extract.ApplyOutcome | td/td.py:294-300 | a run completes exactly when every write lands in the period, and otherwise the first failing write decides the exception |
| Extract.ApplyCells | td/td.py:294-300 | after a complete run, each cell is the fold of the values written at its column, in order |
| Extract.CoveringMembers | td/td.py:297-298 | the values written at a column are those of the writes whose day resolves to it |
| Extract.FoldReplace | td/td.py:298 | with plain assignment the last write wins |
| Extract.PutsLand | td/td.py:297-298 | writes at listed days all land exactly when every listed day lies in the period |
| Extract.PutsCovering | td/td.py:297-298 | the values written at a column by writes at listed days |
| Extract.ReplaceCells | td/td.py:294-300 | each cell holds the last value written at its column, or the initial value |
| Extract.LastWritten | td/td.py:297-298 | the last value written at a column comes from a write at that column |
| Extract.ApplyFailure | td/td.py:294-300 | a run fails with IndexError or with the exception of one of its steps |
| Extract.ReplacedFrom | td/td.py:294-300 | a changed cell holds the value of a write at its column |
| Extract.ApplyConcat | td/td.py:117-121 | running two plans in turn is running their concatenation |
| Extractors.ExtractProcedure | td/td.py:125-142 | one (day, hours, reference day) entry per listed day of each matching activity; KeyError for an activity without days |
| Extractors.ProcedureFailure | td/td.py:125-142 | the extraction fails exactly when a matching activity has no "days" |
| Extractors.ProcedureEntries | td/td.py:129-140 | an entry is a listed day of a matching activity, with its "times" (or [0, 0] for "rich", else [0]) and its "relative" (default 1) |
| Extractors.ExtractLabels | td/td.py:145-155 | extract_labels writes each label at its day, pairing days with labels, or the first label at the start day |
| Extractors.LabelsCells | td/td.py:146-153 | each column holds the last label written for it, or "" |
| Extractors.LabelRaises | td/td.py:150-153 | the label writes raise only IndexError |
| Extractors.LabelsFailure | td/td.py:145-155 | the only exception extract_labels raises is IndexError |
| Extractors.ExtractField | td/td.py:293-300 | extract_field writes each activity's field value, or "", on each of its days, over the given key order |
| Extractors.FieldCells | td.py:142-155 | each column holds the value of the last activity writing it, or "" |
| Extractors.FieldStepFrom | td/td.py:296-298 | a write comes from a dated activity, at one of its days, with its field value |
| Extractors.FieldFrom | td.py:148-154 | a non-blank cell holds the field of a matching activity that lists a day of that column |
| Extractors.FieldRaises | td/td.py:297 | the field writes raise only KeyError, for an activity without days |
| Extractors.FieldFailure | td/td.py:293-300 | extract_field fails with IndexError, or with KeyError when a matching activity has no days |
| Extractors.ComputeDayLabels | td/td.py:327-332 | day_labels writes each listed day's number at its column |
| Extractors.DayLabelsOutcome | td/td.py:327-332 | day_labels succeeds exactly when every listed day lies in the period |
| Extractors.DayLabelsCells | td/td.py:328-331 | a column is labelled exactly when a listed day falls in it, with that day's number |
| Extractors.ComputeDayShadings | td/td.py:335-340 | day_shadings marks the column of each listed day |
| Extractors.DayShadingsOutcome | td/td.py:335-340 | day_shadings succeeds exactly when every listed day lies in the period |
| Extractors.DayShadingsCells | td.py:190-196 | a column is shaded exactly when a listed day falls in it |
| Extractors.ProcedureSymbols | td/td.py:428-437 | procedure_symbols writes the symbol of each normalised day at its column, in a list one slot longer than the period |
| Extractors.SymbolsCells | td.py:281-289 | each column holds the symbol of the last normalised day falling in it, and the spare final slot stays "" |
| Extractors.SymbolsFrom | td/td.py:431-436 | a column shows a symbol exactly when a day falls in it, and "block" only for a day with several hours |
| Extractors.SymbolsMeaning | td.py:281-289 | the same for a procedure's normalised days: hours of 24 h or more put the symbol on later days |
| Names.AddNames | td/td.py:95-99 | appending names not yet present extends the de-duplicated list |
| Names.ItemNames | td/td.py:82-102 | item_names is the de-duplication of all captions of the class, period by period |
| Names.ItemNamesMeaning | td/td.py:92-102 | the names are exactly the captions of that class, each once, in order of first appearance |
| Names.TrialItemNames | td.py:66-76 | the previous release reads "cycles" when present, otherwise "periods", and raises KeyError with neither |
| Runs.SortInPlace | td/td.py:201 | the argument is sorted in place |
| Runs.ExtractStartEnd | td/td.py:196-210 | the argument is left sorted, and the result is the de-duplicated walk without day 0 |
| Runs.RemoveFirstMembers | td/td.py:208-209 | removing 0 from a list without repeats leaves every other element, once each |
| Runs.PairsMembers | td/td.py:202-205 | the walk writes [last_day, i] exactly at the elements that open a pair |
| Runs.OpensSorted | td/td.py:203 | after the first element, an element opens a pair exactly when it does not follow its predecessor (-1 then 1 is consecutive) |
| Runs.WalkMembers | td/td.py:198-206 | the walk holds the cursor's initial 0 and exactly the days that bound a run |
| Runs.StartEndMeaning | td/td.py:196-210 | the result has no repeats and no 0, and holds exactly the first day, the last day and both sides of every gap |
| Runs.StartEndFromInput | td/td.py:196-210 | every result day is an input day, and the input's smallest and largest days (other than 0) are included |
| Runs.WalkExample | td/td.py:198-206 | days -2, -1, 1, 2, 5 form the runs -2..2 and 5..5 |
| Runs.DaysOfEntries | td/td.py:233 | the days of a list of entries, in order |
| Runs.CollectDayRuns | td/td.py:222-227 | the run ends of the listed days of every administration and procedure |
| Runs.CollectDosedDaysOf | td/td.py:232-233 | the normalised days of one procedure with "times", or the failure of its extraction |
| Runs.CollectDosedDays | td/td.py:230-233 | the normalised days of every procedure with "times", in order |
| Runs.DosedMeaning | td/td.py:230-233 | the dosed days fail with KeyError exactly when a procedure with "times" cannot be extracted |
| Runs.CollectIntervalRuns | td/td.py:235-245 | the run ends of each interval given by start and duration, stepping over day 0 |
| Runs.ActivityDays | td/td.py:213-250 | activity_days collects the days, then sets their columns in ascending order |
| Runs.ActivityMarksFailure | td/td.py:230-233 | the collection fails, with KeyError, exactly when a procedure with "times" shares its caption with an activity without days |
| Runs.ActivityMarksMembers | td/td.py:215-245 | the collected days are the period's first and last day, the run ends of activities and intervals, and the dosed days |
| Runs.GridOutcome | td/td.py:246-249 | the grid is built exactly when every collected day lies in the period, and otherwise raises IndexError |
| Runs.GridCells | td/td.py:247-250 | a column is True exactly when a collected day falls in it |
| Runs.ActivityDaysOutcome | td/td.py:213-250 | activity_days raises IndexError exactly when a collected day lies outside the period |
| Runs.ActivityDaysCells | td/td.py:213-250 | a column of activity_days is True exactly when a collected day falls in it |
| Runs.ActivityDaysMarked | td/td.py:246-249 | every collected day's column is True |
| Runs.GridEdges | td/td.py:221 | the columns of the period's first and last day are True |
| Runs.ActivityDaysEdges | td/td.py:213-250 | the first and last columns of activity_days are always True |
| Times.BelowMembers | td/td.py:259 | the hours kept on the current day are exactly those below 24 |
| Times.PeelMembers | td/td.py:262 | the hours carried on are exactly those of 24 or more, less 24 |
| Times.Normalize | td/td.py:253-264 | normalize_procedure spreads each entry over the days its hours reach |
| Times.SpreadDays | td/td.py:257-263 | the while-loop emits one entry per round that has hours below 24 |
| Times.SpreadShape | td/td.py:258-263 | every emitted entry keeps its reference day and has a non-empty list of hours below 24 |
| Times.SpreadNonNegative | td/td.py:258-263 | non-negative hours stay in [0, 24) |
| Times.NormalizedShape | td/td.py:253-264 | every output entry has hours below 24 and the reference day of an input entry |
| Times.NormalizedNonNegative | td/td.py:253-264 | for non-negative input hours, every output hour lies in [0, 24) |
| Times.SpreadLands | td/td.py:258-263 | an hour t >= 0 on day d is found on day d + t div 24 as t mod 24 |
| Times.NormalizeExample | td/td.py:253-264 | (d, [22, 26], r) becomes (d, [22], r) then (d + 1, [2], r) |
| Times.SplitCount | td/td.py:259-262 | each round splits the hours without losing any |
| Times.SpreadCount | td/td.py:258-263 | spreading one entry keeps its number of hours |
| Times.NormalizedCount | td/td.py:253-264 | normalize_procedure neither loses nor invents an hour |
| Times.Unnormalize | td/td.py:267-279 | one (r, hours, r) entry per distinct reference day r, with the hours `t + (d - r) * 24` of its entries, in unspecified order |
| Times.CollectedStep | td/td.py:272-278 | adding a group for a new reference day keeps one entry per group |
| Times.CollectGroup | td/td.py:273-277 | the nested loops gather the shifted hours of one reference day, in list order |
| Times.CollectEntry | td/td.py:275-277 | the innermost loop appends the shifted hours of one entry, if it counts from that day |
| Times.GroupTimesConcat | td/td.py:274-277 | gathering over a concatenation concatenates the groups |
| Times.SpreadGroup | td/td.py:258-277 | the spread of one entry gathers back to its own shifted hours, up to order |
| Times.SpreadOtherGroup | td/td.py:258-277 | the spread of an entry adds nothing to another reference day |
| Times.EntryRoundTrip | td/td.py:253-279 | for every reference day, one entry's spread gathers back to that entry's hours |
| Times.NormalizeRoundTrip | td/td.py:253-279 | unnormalising the normalised entries gives each reference day the hours of the original entries, up to order |
| Footnotes.ExtractFootnotes | td/td.py:158-179 | extract_footnotes marks the days, joins the symbols and registers the footnotes of matching activities |
| Footnotes.FoldFlag | td/td.py:173 | a day's flag is set once any footnote reaches it |
| Footnotes.FoldShown | td/td.py:173-176 | from an empty day, non-empty symbols end up joined by "," in order |
| Footnotes.MarkCells | td/td.py:171-176 | after the writes, a day is marked exactly when a symbol reaches it, and its symbols are joined in order |
| Footnotes.NotesCells | td/td.py:171-176 | per day: marked exactly when a footnote covers it, symbols joined by "," in traversal order |
| Footnotes.NotePlanMembers | td/td.py:163-176 | a symbol is written on a day exactly when a footnote with that symbol lists the day |
| Footnotes.NotePlanCovers | td/td.py:171-173 | a column is reached exactly when a footnote lists a day of that column |
| Footnotes.NotesMarked | td/td.py:171-173 | a day is flagged exactly when a footnote of a matching activity lists a day of its column |
| Footnotes.NoteRaises | td/td.py:164-165 | the footnote writes raise only KeyError, for a footnote without days |
| Footnotes.NotesFailure | td/td.py:158-179 | extract_footnotes fails with IndexError, or with KeyError for a footnote without "days" |
| Footnotes.RegistryMembers | td/td.py:171-177 | the registry holds (symbol, text) of exactly the footnotes that list at least one day |
| Footnotes.KeepIntoConcat | td/td.py:187-192 | admitting two lists in turn is admitting their concatenation |
| Footnotes.KeepFrom | td/td.py:191-192 | only registered entries with a text are kept |
| Footnotes.KeepCovers | td/td.py:191-192 | every symbol registered with a text is kept |
| Footnotes.KeepDistinct | td/td.py:191-192 | no symbol is kept twice |
| Footnotes.KeepFirst | td/td.py:187-192 | a kept entry is the first registration of its symbol that has a text |
| Footnotes.StrLeTotal | td/td.py:193 | Python's string order is total |
| Footnotes.InsertEntry | td/td.py:193 | inserting into a sorted list keeps it sorted and adds exactly the entry |
| Footnotes.InsertEntryDistinct | td/td.py:193 | inserting a new symbol keeps the symbols distinct |
| Footnotes.SortBySymbol | td/td.py:193 | `sorted` returns a permutation ordered by symbol |
| Footnotes.SortDistinct | td/td.py:193 | sorting keeps the symbols distinct |
| Footnotes.CollectGather | td/td.py:186-192 | keeping while walking is keeping from all registrations at once, with the same failure |
| Footnotes.CollectFailed | td/td.py:186-192 | after a failing extraction, later visits change nothing |
| Footnotes.AdmitAll | td/td.py:190-192 | the inner loop admits each registration in turn |
| Footnotes.CollectStep | td/td.py:189-192 | one more period: its registrations are admitted, or its failure is the outcome |
| Footnotes.CollectCaption | td/td.py:188-192 | the loop over the periods for one caption |
| Footnotes.CollectCaptions | td/td.py:187-192 | the loop over the captions |
| Footnotes.FootnoteList | td/td.py:182-193 | footnote_list walks intervals, administrations and procedures, then every period, then sorts |
| Footnotes.FootnoteListMeaning | td/td.py:182-193 | the result is sorted, each symbol once and only with a text, and a permutation of the first registrations with a text |
| Layout.StrategyOf | td/td.py:877-891 | condensed wins over auto-compression, and without either every day has the same width |
| Layout.Narrowed | td/td.py:880 | full width where marked, a third of it elsewhere |
| Layout.Labelled | td/td.py:880 | the days that carry a label |
| Layout.UniformWidths | td/td.py:888-890 | uniform widths are `duration` copies of the width of "XX", which add up to duration times that width |
| Layout.RepeatSum | td/td.py:442-443 | n copies of w add up to n * w |
| Layout.CondensedWidths | td/td.py:878-883 | condensed: the full width for labelled days and a third otherwise, a one-day period is one full width, and the strategy fails as day_labels does |
| Layout.AutoCompressedWidths | td/td.py:884-887 | auto-compressed: the full width exactly on activity days, which include the first and last |
| Layout.Starts | td/td.py:446-453 | each day starts at xoffset plus the widths of the days before it |
| Layout.PeriodDayStarts | td.py:298-305 | the accumulator loop, with its final element dropped, gives the day starts |
| Layout.Centers | td.py:308-310 | one centre per day |
| Layout.Ends | td.py:313-317 | one end per day |
| Layout.GeometryChain | td.py:294-317 | the first day starts at xoffset, each day starts where the one before ends, and the last ends at xoffset plus period_width |
| Layout.GeometryOrder | td/td.py:446-465 | with positive widths each centre lies midway inside its day, and the days run left to right |
| Layout.SumGrows | td/td.py:449-452 | with positive widths a longer prefix is wider |
| Rows.RenderProcedure | td.py:386-403 | the ellipses list, then one mark per column with a symbol, as the precedence rules choose |
| Rows.MarksUpToMeaning | td/td.py:535-550 | the marks of the first k columns are exactly those their columns call for, in column order |
| Rows.MarksMeaning | td.py:386-403 | a dot exactly on an unlabelled, undecorated day of a symbol list longer than 3 with ellipses on; otherwise a circle for a value, open exactly when it equals 0 (a number 0 or `false`); otherwise the symbol, bracketed exactly when decorated "bracketed" |
| Rows.RenderDoseLabels | td/td.py:606-625 | the collision cursor loop over the zipped day starts and doses, which raises ZeroDivisionError at the first drawn dose when the numeric doses are all equal, and otherwise returns the labels |
| Rows.DoseRunExtends | td/td.py:613-625 | later columns only append labels, on later days |
| Rows.DoseLabelsComplete | td/td.py:616-625 | a day gets a label exactly when its dose is numeric, differs from the last numeric dose, and starts more than an "n" past the end of the earlier labels; the label shows that dose at the day's left edge |
| Rows.DoseGraphOutcome | td/td.py:606-625 | a row whose doses all have a day start raises exactly when its dose levels raise; a row that does not raise has spaced labels at dose changes |
| Rows.FloatTextCrowds | td/td.py:622-623 | a label's extent is that of `str(d)`: with a wider "2.0" the next label is crowded out after a float 2.0 but not after an int 2 |
| Rows.DoseRunLastDose | td/td.py:621-625 | the cursor's last dose is the last numeric dose seen, 0 before any |
| Rows.SpacedGrow | td/td.py:621-622 | a column without a new label keeps the labels spaced |
| Rows.SpacedSnoc | td/td.py:621-624 | a label at a changed dose, past the last label's end plus an "n", keeps the labels spaced |
| Rows.DoseStepSpaced | td/td.py:616-625 | one column keeps the labels spaced and lastend at the end of the last label |
| Rows.DoseRunStepSpaced | td/td.py:616-625 | the column after the loop's current cursor keeps the labels spaced and lastend at the end of the last label |
| Rows.DoseRunSpaced | td/td.py:613-625 | the loop keeps the labels spaced and lastend at the end of the last label |
| Rows.DoseLabelsMeaning | td/td.py:613-625 | labels mark only changes of numeric dose, at the left edge of their day, in day order, each ending more than an "n" before the next starts |
| Rows.Spans | td.py:463-470 | start with duration gives one span, a days list one one-day span per day, and anything else a TypeError |
| Rows.SpanBox | td/td.py:659-665 | both ends of a span must resolve, otherwise IndexError |
| Rows.SpanBoxMeaning | td.py:472-478 | a box exists exactly when both ends resolve; it spans from its first column's start to its last column's end, and covers `duration` columns less one for a span from day 0 before which day 0 aliases day 1 |
| Rows.SpanBoxesMeaning | td/td.py:659-672 | a span list's boxes are those of its spans, failing with IndexError exactly when a span does |
| Rows.BoxesOfFailure | td/td.py:648-665 | the row fails exactly when a matching interval does, with IndexError or TypeError |
| Rows.IntervalBoxesMembers | td/td.py:651-672 | the boxes of one interval are exactly those of its spans |
| Rows.BoxesOfMembers | td/td.py:648-672 | the boxes of a row are exactly the span boxes of the intervals with the row's caption |
| Rows.SpanBoxesFailed | td/td.py:659-665 | an exception at one span ends the row |
| Rows.BoxesOfFailed | td/td.py:648-665 | an exception at one interval ends the row |
| Rows.RenderExtents | td/td.py:659-672 | the loop over one interval's spans draws their boxes |
| Rows.RenderInterval | td.py:441-486 | render_interval draws the boxes of the matching intervals in order |
| Rows.DrawnDoses | td/td.py:607-616 | every dose the loop draws (`type` int or float) is among the doses the row is scaled by (`isinstance` int or float, booleans included) |
| Rows.MaxOf | td/td.py:609 | the largest numeric dose |
| Rows.MinOf | td/td.py:609 | the smallest numeric dose |
| Rows.FlatMeaning | td/td.py:608-611 | dosey's divisor is 0 exactly when there are numeric doses and they are all equal |
| Rows.DoseLevelsAsWrittenFail | td/td.py:606-617 | as written, a row raises exactly when it draws a dose and its numeric doses are all equal |
| Rows.DoseLevelsFailExamples | td/td.py:606-617 | a row with a single dose raises |
| Rows.BooleanDoses | td/td.py:607-616 | a dose of 1 with a `true` raises, as the boolean counts among the extremes; two `true`s alone never reach dosey |
| Rows.DoseLevels | td/td.py:608-616 | one level per drawn dose |
| Rows.DoseYOrder | td/td.py:610-611 | between the extremes, a larger dose is drawn higher, within the band y to y + 0.6 * lineheight |
| Rows.DoseLevelsMeaning | td/td.py:608-616 | guarded levels: a drawn dose equal to the smallest numeric dose on the baseline, one equal to the largest at the top when the doses differ, never a larger dose lower |
| Rows.DoseLevelsAgree | td/td.py:608-611 | the guarded levels equal the written ones wherever the written ones do not raise |
| Rows.AddOutput | td/td.py:785-787 | markup joined in order, heights added |
| Rows.AddOutputMonoid | td/td.py:785-787 | outputs form a monoid under add_output, and adding a label height in front leaves the markup unchanged |
| Rows.RenderPeriods | td.py:589-607 | the x cursor moves by each period's width plus the spacing; the dash rule uses the sticky `last` flag, set by comparing whole period dictionaries |
| Rows.PlacementsMeaning | td/td.py:816-827 | each period starts one spacing after the previous one ends, a dash follows every period but the final one, and only the first is a first pass |
| Rows.PlacementsApart | td/td.py:826 | with non-negative widths and spacing, periods do not overlap |
| Rows.PlacementsAgree | td/td.py:817-825 | when the final period occurs nowhere earlier, the code as written places and dashes as intended |
| Rows.RepeatedPeriodLosesDash | td/td.py:817-825 | for [a, a] with dashes on, the code as written draws no dash between the two periods |
| Validate.PreviousPeriodMeaning | td.py:12-21 | a period passes exactly with a caption and an integer duration of at least one; a short duration is reported as such |
| Validate.PeriodChecksCompared | td/td.py:19-27 | the current check accepts whatever the previous one accepted, and rejects exactly the missing-field cases |
| Validate.ZeroDurationPeriod | td/td.py:24 | a zero duration passes the current check and fails the previous one |
| Validate.ChecksAgree | td.py:24-37 | both releases accept the same procedures and intervals; a missing interval caption is an AssertionError |
| Lists.UniqueNoDuplicates | td/td.py:207 | `dict.fromkeys` de-duplication leaves no repeats |
| Lists.UniqueFirstOccurrenceOrder | td/td.py:207 | the de-duplicated list keeps the order of first occurrence |
| Lists.UniqueInFirstOrder | td/td.py:98-99 | appending unseen elements lists them in the order they first occur |
| Lists.FlatMapConcat | td/td.py:140 | concatenating over a concatenation concatenates the results |
| Lists.FlatMapMembers | td/td.py:140 | an element of the concatenation comes from the image of some element |
| Lists.Insert | td/td.py:201 | inserting into a sorted list keeps it sorted and adds exactly the element |
| Lists.SortedInts | td/td.py:201 | `list.sort` returns an ascending permutation |
| Lists.AscendingOrdered | td/td.py:246 | in an ascending list every earlier element is at most every later one |

## Left out

- A period without "start": neither release checks the key (`td/td.py:19-27`, `td.py:12-21`), so such a period passes and then raises KeyError at `period['start']` in `day_index` (`td/td.py:319`) and `activity_days` (`td/td.py:215`). Here every period carries a `start`, so that KeyError is not modelled. Neither is the default `start` of 1 that the loader gives a cycle without one (`td/td.py:840-841`), since loading is not modelled.
- Input parsing, JSON loading, the command-line front ends of both releases, and SVG file output are not modelled. The input arrives as typed records (`Schema`). The checks on raw records are modelled on a map from key to JSON value (`Validate`).
- Text measurement through cairo is a foreign library. It is a parameter: `measure` in `Layout`, `width` and the width of "n" in `Rows`.
- The SVG emitters (`svg_line`, `svg_rect`, `svg_circle`, `svg_text`, `svg_path`, `svg_symbol`, the brackets, `svg_curly_up`) only format numbers into markup. Rows are modelled as lists of the marks, labels, boxes and placements they would draw, without sizes, colours or markup.
- `render_times`, `timescale_height`, `render_labels_footnotes`, `render_footnote_text`, `make_footnote_text`, `render_periodcaption`, `render_daygrid` and the stacking of rows in `render_td`: these lay out text and positions proportionally, not through decisions on days. Only their inputs (columns, labels, footnote columns) are modelled.
- The dose-graph polyline segments and the `lasty` truthiness test of `render_dose_graph`: they draw lines and choose no labels. Only the dose heights, the ZeroDivisionError of `dosey` and the label cursor are modelled.
- `render_periods` (current release): the label and footnote pre-pass and its height. Only the placement cursor, the `first` and `last` flags, and the final `add_output` are modelled.
- `extract_interval`, `extract_times`, `render_dummy` and `has_timescale` are unused or debug code and are not part of this model.
- Floating point is modelled as exact reals. A number keeps whether JSON wrote it as a float, and a dose label keeps the dose value itself, so its text `str(d)` tells 2 from 2.0; `Rows.FloatTextCrowds` shows the difference reaching the layout. The width of that text comes from the `width` parameter, since font metrics are not modelled.
- Hours are integers. Fractional hours in "times" are not modelled.
- A JSON boolean is a Python int. In a "days" list it is written `Day(1)` or `Day(0)`, which behaves the same. In a field value it is `Truth(b)`: it equals 0 or 1, counts as a numeric dose, and is never drawn as one.
- Any other JSON value (null, a list, an object) is `OtherValue`. A "value" field holding one is drawn as a filled circle, as Python's `v == 0` is false for it.
- DayList.DecodeDaylist: only the ASCII digits 0 to 9 are digits. Python's `\d` and `int()` also accept the other Unicode decimal digits, whose table depends on the Python version.
- Footnotes.FootnoteList: footnote symbols and texts are strings, and both are present. A numeric symbol, which `str()` shows and `sorted` orders by value, is not modelled. Neither is the TypeError `sorted` raises on a mix of numbers and strings, nor the KeyError for a footnote without "symbol" or "text".
- `item_names` (current release) raises KeyError for an item without a caption. Records here always carry a caption, so that error path is not modelled.
- The width of a period is passed to `Rows.RenderPeriods` and `Rows.RenderInterval` as a list, not recomputed through the width strategy. `Layout` relates the two.
- `Rows.RenderProcedure` takes a row whose lists are already extracted (a `ProcedureRow`), and `Rows.RenderDoseLabels` takes the day starts and the extracted doses. The errors that render_procedure and render_dose_graph raise while extracting are modelled by the extractors they call (`Extractors.ExtractField`, `Extractors.ProcedureSymbols`, `Extractors.ComputeDayLabels`), not by these two members.
- A period list with no periods makes `render_periods` read an unset `y_out` (a NameError). The placements of an empty list are empty here.
- Times.Unnormalize: the order of its groups is left open, as Python iterates over a set. The contract fixes the groups, not their order.
- Layout.Centers and Layout.Ends: their own contracts state only the length. Their positions are stated in Layout.GeometryChain and Layout.GeometryOrder.
- Rows.RenderPeriods: it models the dash rule as written, a sticky flag set by comparing whole period dictionaries. The dictionaries are left as values of any type with equality, so every key takes part, "decoration" included. The intended rule is Rows.Placements (see Findings).

## Findings

| source | as written | input that shows it | evidently intended | confidence | as-written member | corrected member |
|---|---|---|---|---|---|---|
| td/td.py:608-611 | `dosey` divides by `maxdose - mindose`, which is zero when every numeric dose of the row is equal, so the dose graph raises ZeroDivisionError | a dose graph row with a single numeric dose, `[Num(d, false)]`, or any row whose numeric doses are all equal | draw the equal doses as a flat line on the baseline | not executed | Rows.DoseLevelsFailExamples | Rows.DoseLevelsMeaning |
| td/td.py:817-825 | `last` becomes true at the first period equal by value to `periods[-1]` and stays true, so every later period loses its dash | two equal periods `[a, a]` with dashes on: no dash is drawn between them | a dash after every period except the final one | not executed | Rows.RepeatedPeriodLosesDash | Rows.PlacementsMeaning |
