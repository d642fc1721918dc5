# EGChem FACSYS inspection checklist — a Dafny model

The EGChem FACSYS app is a browser checklist for inspecting vacuum pumps
and other plant equipment. An inspector picks a type: daily, weekly,
monthly, quarterly, semiannual or annual inspection. They then pick one or
more pieces of equipment from the sheet (team) they work on, tick the
checklist items, add notes and submit. Each piece of equipment becomes one
row in a Google Sheet, sent through an Apps Script web app.

A dashboard shows, for every type, how much of the team's equipment has a
recent enough inspection on the sheet. Alarm logic marks equipment whose
inspection cycle has run out.

This project models the core of that app in Dafny:

- `alarm.dfy` (module `Alarm`): inspection cycles, the alarm/warning
  classification and the inspection-time history (`InspectionTimeManager`),
  from `js/equipment.js`.
- `equipment.dfy` (module `Equipment`): the per-type checklist items
  (`InspectionItemsManager`) and the per-sheet equipment lists
  (`EquipmentManager`), from `js/equipment.js`. Like the source, all six
  inspection types share one list object, and the model proves that sharing.
- `sheets.dfy` (module `Sheets`): the Google Sheets connector
  (`GoogleSheetsManager`) from `js/googleSheets.js`. It covers the 30-second
  reply cache, the row format written for each inspection, filtering replies
  by sheet tag and the hard-coded team equipment filter.
- `checklist.dfy` (module `Checklist`): the list of ticked items and the
  single free-text "기타" (other) item, from `js/app.js`.
- `dashboard.dfy` (module `Dashboard`): completion rates, equipment
  selection and submission, from `js/app.js`. The page's global state
  (`inspectionData`) is the class `InspectionSession`.
- `inspection_utils.dfy` (module `InspectionUtils`): the `InspectionManager`
  of `inspection.js`. It covers type tables, next-check dates, alerts, the
  schedule, validation, summaries and statistics.
- `legacy_app.dfy` (module `LegacyApp`): the older single-equipment app
  class `EGChemApp` of `app.js`.
- `seqs.dfy` (module `Seqs`): sequence helpers and the JavaScript built-ins
  the core relies on (`indexOf`, `trim`, `split`/`join`, `toLowerCase`,
  number-to-string).

**Inputs the source reads from the environment are parameters.** This
covers the clock (`now` in milliseconds, `today` as a day number), date
parsing (`dayOf: string -> int`) and the web app's replies (`Reply` values,
one per call, indexed by call number).

**JavaScript values.** A JavaScript falsy string is `""` and an absent
value is `None`. `Math.floor` with a positive divisor is Dafny's `/`.

## Model

| member | source | states |
|---|---|---|
| Alarm.CycleDays | js/equipment.js:105-106 | the cycle is 1 day exactly for daily inspection; it is 7 days for weekly and for every unknown type (the `|| 7` fallback); otherwise it is at least 7 |
| Alarm.StatusFromDate | js/equipment.js:116-160 | unknown exactly when there is no last date; a future date is normal. Daily: alarm exactly when today is after the last day. Other types: alarm exactly when the days since reach the cycle, warning exactly in the last 3 days before it |
| Alarm.StatusFromElapsed | js/equipment.js:97-113 | never unknown; daily is always normal; other types: alarm exactly when elapsed ms reach cycle × one day, warning exactly in the 3 days before that |
| Alarm.AlarmStatusTextInjective | js/equipment.js:162-165 | distinct alarm statuses get distinct Korean labels |
| Alarm.NonDailyBoundaries | js/equipment.js:142-155 | for non-daily types: exactly one cycle ago is alarm, cycle−3 days ago is warning, cycle−4 days ago is normal |
| Alarm.StatusFromDateMonotone | js/equipment.js:140-155 | for a fixed last date, severity never decreases as today advances |
| Alarm.VariantsAgreeOffDaily | js/equipment.js:97-155 | off the daily type, the timestamp-based and the date-based classifications agree when the elapsed ms floor to the same day count |
| Alarm.DailyAsymmetry | js/equipment.js:97-150 | for daily inspection a past day is alarm by date while the timestamp variant still says normal |
| Alarm.BuildKeyInjective | js/equipment.js:66-68 | the `sheet_type_name` history key determines its three parts when sheet and type contain no underscore |
| Alarm.InspectionTimeManager.constructor | js/equipment.js:62-64 | the history starts as the saved history |
| Alarm.InspectionTimeManager.RecordInspection | js/equipment.js:79-90 | the new history is the old one with the record under the built key set to now, and every other key is unchanged |
| Alarm.InspectionTimeManager.LastInspectionTime | js/equipment.js:92-95 | there is a time exactly when the key is recorded, and then it is the recorded timestamp |
| Alarm.InspectionTimeManager.CalculateAlarmStatus | js/equipment.js:97-113 | unknown exactly when nothing is recorded; daily never warns or alarms; otherwise the status of the elapsed time since the record |
| Alarm.RecordedNowIsNormal | js/equipment.js:79-113 | an inspection recorded now is classified normal now |
| Equipment.AddedItem | js/equipment.js:30-37 | adding fails exactly at the 50-item limit or for a duplicate, the limit error coming first; success appends the name at the end |
| Equipment.DeletedItem | js/equipment.js:39-46 | deleting fails exactly when the name is absent (not found); success removes exactly the first occurrence, at the index where it stands, keeping the order of the rest (and so one element of the multiset) |
| Equipment.ItemListInvariantPreserved | js/equipment.js:30-46 | add and delete keep the list duplicate-free and within the limit; a deleted name is gone |
| Equipment.AddThenDeleteItem | js/equipment.js:30-46 | deleting a just-added item restores the original list |
| Equipment.InspectionItemsManager.constructor | js/equipment.js:7-24 | all six types start with the default items and share one list object |
| Equipment.InspectionItemsManager.Items | js/equipment.js:48-50 | an unknown type has no items |
| Equipment.InspectionItemsManager.AddInspectionItem | js/equipment.js:30-37 | the outcome and new items are those of AddedItem; an unknown type gets a fresh list; every type sharing the list sees the change; no other list changes |
| Equipment.InspectionItemsManager.DeleteInspectionItem | js/equipment.js:39-46 | an unknown type is an error; otherwise the outcome and new items are those of DeletedItem, seen by every type sharing the list; no other list changes |
| Equipment.AddUnderDailyShowsUnderWeekly | js/equipment.js:15-34 | an item added under daily inspection also appears under weekly, because the array is shared |
| Equipment.StatusText | js/equipment.js:259-262 | "정상" exactly for normal; "알 수 없음" exactly for a status outside the four known ones |
| Equipment.SheetEquipmentNames | js/equipment.js:187-216 | every sheet's list has 5 to 14 pieces of equipment (1-A for unknown sheets) |
| Equipment.SheetEquipment | js/equipment.js:216-217 | the sheet's names in order, each normal with text "정상" |
| Equipment.AddedEquipment | js/equipment.js:235-244 | fails exactly at the 100-entry limit or for a duplicate name; success appends the entry with its status text |
| Equipment.DeletedEquipment | js/equipment.js:246-253 | fails exactly when the name is absent; success removes the first entry with that name |
| Equipment.AddedEquipmentInvariant | js/equipment.js:235-244 | adding keeps names unique and within the limit |
| Equipment.DeletedEquipmentInvariant | js/equipment.js:246-253 | deleting keeps names unique, and the name is gone |
| Equipment.SheetEquipmentInvariant | js/equipment.js:187-217 | every built-in sheet list has unique names within the limit |
| Equipment.EquipmentManager.constructor | js/equipment.js:177-229 | all six types start with the current sheet's list and share one list object |
| Equipment.EquipmentManager.EquipmentByType | js/equipment.js:255-257 | an unknown type has no equipment |
| Equipment.EquipmentManager.AddEquipment | js/equipment.js:235-244 | outcome, returned entry and new list are those of AddedEquipment; an unknown type gets a fresh list; sharing types see the change; no other list changes |
| Equipment.EquipmentManager.DeleteEquipment | js/equipment.js:246-253 | an unknown type is an error; otherwise outcome and new list are those of DeletedEquipment, seen by every sharing type; no other list changes |
| Sheets.SheetTag | js/googleSheets.js:312-317 | the tag is empty exactly when all five sheet fields are empty, and `sheetName` takes precedence |
| Sheets.FilterBySheet | js/googleSheets.js:305-325 | the loop computes the sheet filter: matching tags first, then for 1-A the untagged rows |
| Sheets.FilterBySheetMembership | js/googleSheets.js:316-324 | a row is kept exactly when its tag equals the sheet, or when the sheet is 1-A and the row is untagged |
| Sheets.FilterBySheetOtherSheets | js/googleSheets.js:321-324 | for sheets other than 1-A, every kept row carries that sheet's tag |
| Sheets.FilterBySheetOrder | js/googleSheets.js:321-322 | tagged matches come before the untagged rows added for 1-A |
| Sheets.DeleteFirst | js/googleSheets.js:338 | `replace('1-', '')` drops a leading "1-" and leaves a string without "1-" unchanged |
| Sheets.FilterEquipmentBySheet | js/googleSheets.js:328-353 | the team table as written: the reply is untouched unless it names some other team's equipment (not also the requesting team's) and none of the requesting team's own; then every row naming other teams' equipment is dropped, rows with names no team lists are kept, and the order is kept |
| Sheets.FilterEquipmentBySheetIdempotent | js/googleSheets.js:328-353 | filtering twice is filtering once |
| Sheets.SharedEquipmentDroppedOnB | js/googleSheets.js:331-334 | a 1-B reply naming only 맨틀, on 1-B's own list, is filtered to nothing |
| Sheets.FilterEquipmentBySheetFixed | js/googleSheets.js:328-353 | the corrected filter: the reply is untouched unless it looks like another team's data; then only foreign rows are dropped, in order |
| Sheets.FixedKeepsOwnSheetEquipment | js/app.js:303-333 | the corrected filter never drops a row naming equipment on the requesting sheet's own list |
| Sheets.SharedEquipmentReplyEmptyOnB | js/googleSheets.js:282-294 | the reply pipeline as written returns nothing for a 1-B reply naming only 맨틀 |
| Sheets.EquipmentReplyFixedKeepsOwn | js/googleSheets.js:282-294 | with the corrected table, a row naming the sheet's own equipment, untagged or tagged with that sheet, reaches the caller tagged |
| Sheets.OwnDataKeepsReply | js/googleSheets.js:344-352 | a reply holding any of the team's own equipment is returned unchanged |
| Sheets.TagEntry | js/googleSheets.js:286-292 | an untagged row gets the requested sheet as tag; name and date are kept |
| Sheets.TagUntagged | js/googleSheets.js:286-292 | each row is tagged in place, order and length kept |
| Sheets.EquipmentReplyTagged | js/googleSheets.js:283-294 | every row of the processed reply carries the requested sheet's tag |
| Sheets.EntryTexts | js/googleSheets.js:208-209 | one `item: result` text per check entry, in order |
| Sheets.CheckContentRoundTrip | js/googleSheets.js:206-213 | splitting the written check content on ", " and then ": " reads back every item and result, when these contain no separator |
| Sheets.FormatInspectionDataForSheet | js/googleSheets.js:199-226 | the row has seven cells: date, type (daily by default), equipment, two empty cells, check content and notes |
| Sheets.ResolveSheet | js/googleSheets.js:177 | the sheet is never empty, and an explicit sheet wins |
| Sheets.GoogleSheetsManager.constructor | js/googleSheets.js:15-21 | the web app URL is stored and the cache is empty |
| Sheets.GoogleSheetsManager.Lookup | js/googleSheets.js:24-31 | a cached value is returned exactly when the key is present and younger than 30 seconds |
| Sheets.GoogleSheetsManager.GetCache | js/googleSheets.js:24-31 | returns the cache lookup; a miss deletes the key |
| Sheets.GoogleSheetsManager.SetCache | js/googleSheets.js:34-36 | stores the data with the current time, so an immediate lookup finds it |
| Sheets.GoogleSheetsManager.ClearCache | js/googleSheets.js:39-41 | the cache becomes empty and every lookup misses |
| Sheets.GoogleSheetsManager.AddInspectionData | js/googleSheets.js:174-197 | no URL throws and sends nothing; otherwise the formatted row goes to the resolved sheet; success clears the cache; failure throws the reply's message |
| Sheets.GoogleSheetsManager.GetEquipmentFromSheet | js/googleSheets.js:255-302 | no URL throws; a fresh cache hit is returned unchanged; otherwise a successful reply goes through the team filter as written (FilterEquipmentBySheet), the tagging and the sheet filter, and is stored in the cache stamped with the reply's arrival time and returned; every returned row carries the requested sheet's tag; a failed reply throws |
| Checklist.Upsert | js/app.js:650-652 | an existing item's first entry is replaced in place (same index, every other entry unchanged); a new item is appended |
| Checklist.RemoveItem | js/app.js:643-644 | an absent item leaves the list unchanged; otherwise exactly its first entry is removed, at its index, keeping the order of the rest |
| Checklist.UpsertContents | js/app.js:650-652 | items stay unique, and the list holds the new result plus every entry for other items |
| Checklist.RemoveItemContents | js/app.js:643-644 | items stay unique, and exactly the entries for other items remain |
| Checklist.UpsertTwice | app.js:446-455 | setting an item twice is the same as setting it once, to the last value |
| Checklist.UpsertThenRemove | js/app.js:635-653 | ticking then unticking a new item restores the list |
| Checklist.ConfirmOther | js/app.js:719-731 | blank input (after trim) is rejected; otherwise the trimmed "기타: " entry, completed, replaces the first "기타: " entry in place, or is appended when there is none |
| Checklist.ConfirmOtherRejectsBlank | js/app.js:719-720 | input is rejected exactly when every character is whitespace |
| Checklist.ConfirmOtherKeepsOne | js/app.js:729-731 | after a confirmed "other" entry there is exactly one such entry |
| Checklist.DeselectOtherLeavesNone | js/app.js:696-699 | deselecting "other" leaves no such entry |
| Checklist.OrdinaryTogglesKeepOtherCount | js/app.js:635-653 | ticking or unticking an ordinary item never changes the "other" entries |
| Checklist.AsCheckEntries | js/app.js:759-764 | each ticked item becomes one item/result pair, in order |
| Checklist.CheckContentReadsBack | js/googleSheets.js:206-210 | the check content written for a session reads back every ticked item and its result |
| Dashboard.CompletionPercentage | js/app.js:292 | 0 for no equipment; otherwise completed/total × 100 rounded to the nearest integer, halves up |
| Dashboard.PercentageOfNothing | js/app.js:292 | nothing completed gives 0 % |
| Dashboard.PercentageBounds | js/app.js:292 | the percentage is at most 100, and exactly 100 when all are completed |
| Dashboard.PercentageMonotone | js/app.js:292 | more completed equipment never lowers the percentage |
| Dashboard.RateStatusOf | js/app.js:293-295 | alarm below 50 %, warning from 50 % to below 80 %, completed from 80 % |
| Dashboard.RateStatusMonotone | js/app.js:292-295 | more completed equipment never worsens the dashboard status |
| Dashboard.EquipmentListForSheet | js/app.js:301-333 | the names are the sheet's list from the single equipment table (1-A for unknown sheets), and every entry is normal |
| Dashboard.FindSheetEntry | js/app.js:269-270 | found exactly when some sheet row matches after trim and lower-casing; the match is such a row |
| Dashboard.FirstMatchWins | js/app.js:269-270 | the first matching row is the one used |
| Dashboard.CountsAsCompleted | js/app.js:272-282 | a found row counts exactly when its date value reads normal, or its trimmed date text has the YYYY-MM-DD shape and reads normal; nothing else counts |
| Dashboard.InspectedTodayCountsAll | js/app.js:266-283 | when every listed piece is found on the sheet inspected today, all of them count |
| Dashboard.InspectedTodayReadsComplete | js/app.js:266-296 | a non-empty fetched reply where every listed piece was inspected today gives 100%, all completed, status completed |
| Dashboard.CountCompleted | js/app.js:268-284 | the completed count never exceeds the equipment count |
| Dashboard.UnknownNamesCountZero | js/app.js:268-284 | equipment absent from the sheet never counts as completed |
| Dashboard.CountCompletedEquipment | js/app.js:268-284 | the loop's count equals the specified count |
| Dashboard.CalculateCompletionRate | js/app.js:238-298 | the computed rate equals its specification for every sheet reply |
| Dashboard.CompletionRateConsistent | js/app.js:238-298 | completed ≤ total, percentage ≤ 100, status matches percentage, total is the sheet's list size |
| Dashboard.UnconnectedReadsAlarm | js/app.js:246-297 | with no connector or an empty reply the rate is 0 of the list size, in alarm |
| Dashboard.SuccessPlusFailed | js/app.js:758-775 | successes plus failed names account for every selected piece of equipment |
| Dashboard.NoUrlAllFail | js/app.js:758-775 | without a web app URL no save succeeds and every name is failed |
| Dashboard.RecordAllContents | js/app.js:758-775 | after submission every selected piece has its inspection time set to now, and no other key changes |
| Dashboard.SubmitStep | js/app.js:758-775 | one loop step adds one success or one failed name, and records one inspection time |
| Dashboard.SaveSummaryOf | js/app.js:777-784 | "all saved" exactly when every save succeeded; "local only" exactly when none did |
| Dashboard.InspectionSession.constructor | js/app.js:11-16 | the session starts with no type, no equipment, no items and no notes |
| Dashboard.InspectionSession.SelectType | js/app.js:344 | sets the type and nothing else |
| Dashboard.InspectionSession.SelectEquipment | js/app.js:493-497 | adds the name when absent; never duplicates it |
| Dashboard.InspectionSession.DeselectEquipment | js/app.js:490-491 | removes the first occurrence; with unique names, the name is gone |
| Dashboard.InspectionSession.TickItem | js/app.js:646-652 | records the item as completed; ordinary items never change the "other" entries |
| Dashboard.InspectionSession.UntickItem | js/app.js:643-644 | removes the item; ordinary items never change the "other" entries |
| Dashboard.InspectionSession.ConfirmOtherItem | js/app.js:713-736 | accepted exactly when the trimmed input is non-empty, leaving one "other" entry; a rejection changes nothing |
| Dashboard.InspectionSession.DeselectOtherItem | js/app.js:696-699 | removes the "other" entry |
| Dashboard.InspectionSession.SaveNotes | js/app.js:403-407 | the notes become the trimmed text |
| Dashboard.InspectionSession.SubmitInspection | js/app.js:747-796 | rejects, in order, a missing type, equipment or items, changing nothing. Otherwise it saves one row per piece, counts successes and failures, records every inspection time and clears the cache when any save succeeded |
| InspectionUtils.GetInspectionItemsForType | inspection.js:151-154 | the type's configured items, none for an unknown type |
| InspectionUtils.LocationsForType | inspection.js:157-160 | the configured locations without the empty placeholder; none for an unknown type |
| InspectionUtils.DailyLocations | inspection.js:157-160 | daily inspection is done in 3동 and 10동 |
| InspectionUtils.PlantLocations | inspection.js:157-160 | every other type is done in 정제실1 to 정제실4 |
| InspectionUtils.DaysBetweenAtMost | inspection.js:121-122 | the floor day count is at most d exactly when the next check falls before now + (d+1) days |
| InspectionUtils.StatusOfDays | inspection.js:124-130 | alarm at 0 days or fewer, warning at 1 to 3 days, normal beyond |
| InspectionUtils.StatusLabelInjective | inspection.js:114-130 | distinct statuses get distinct labels |
| InspectionUtils.LookupStatus | inspection.js:112 | found exactly when some entry has the name, and the result is such an entry |
| InspectionUtils.PutStatusLookup | inspection.js:79-86 | setting a status keeps names unique; the name now finds the new entry, other names find what they found before |
| InspectionUtils.EquipmentStatusOf | inspection.js:111-131 | unknown exactly when not found; otherwise the status of the days to the next check; the label matches the status |
| InspectionUtils.EquipmentStatusAgainstClock | inspection.js:117-130 | alarm exactly when the next check is less than one day away, warning exactly when 1 to 4 days away |
| InspectionUtils.CheckInterval | inspection.js:95-104 | the interval is at least one day, and at most three only for VP-001 |
| InspectionUtils.UniqueInOrder | inspection.js:77 | the list without duplicates and with the same members, in order of first occurrence |
| InspectionUtils.PutDefaultsLookup | inspection.js:69-87 | defaults give every listed name its default entry and leave others as before |
| InspectionUtils.FreshDefaultStatus | inspection.js:69-130 | read up to one day after the defaults are written, VP-001 is warning at the instant of writing and alarm after it; all other pieces are normal |
| InspectionUtils.AlertFor | inspection.js:262-282 | an alert exactly when the next check is ≤ 3 days away; urgent exactly when it is due, with the days overdue, otherwise upcoming with the days left |
| InspectionUtils.AlertsFollowStatus | inspection.js:258-285 | urgent alert ⇔ alarm status, upcoming alert ⇔ warning, no alert ⇔ normal |
| InspectionUtils.PriorityOf | inspection.js:302 | urgent exactly when due, high exactly within three days |
| InspectionUtils.ScheduleFor | inspection.js:297-303 | scheduled exactly when the next check is within the window, with its date |
| InspectionUtils.InsertByDate | inspection.js:308 | inserting adds exactly that entry |
| InspectionUtils.InsertByDateSorted | inspection.js:308 | insertion keeps the list sorted by date |
| InspectionUtils.SortByDate | inspection.js:308 | sorting is a permutation |
| InspectionUtils.SortByDateSorted | inspection.js:308 | sorting yields a list ordered by date |
| InspectionUtils.InspectionManager.constructor | inspection.js:4-67 | starts with the default status of every configured piece of equipment |
| InspectionUtils.InspectionManager.SetDefaultEquipmentStatus | inspection.js:69-87 | writes the default for every unique configured piece |
| InspectionUtils.InspectionManager.WriteDefaults | inspection.js:79-86 | writes one default per given name, keeping names unique |
| InspectionUtils.InspectionManager.GetEquipmentStatus | inspection.js:111-131 | unknown exactly when the name has no status; the label matches |
| InspectionUtils.InspectionManager.GetEquipmentForType | inspection.js:134-148 | one view per configured piece of the type, in order, with its status; none for an unknown type |
| InspectionUtils.InspectionManager.GenerateInspectionAlerts | inspection.js:258-285 | the loop yields the alert of every entry that has one, in order |
| InspectionUtils.InspectionManager.GenerateInspectionSchedule | inspection.js:288-311 | the schedule is sorted by date and is a permutation of the entries due within the window |
| InspectionUtils.AlertsComplete | inspection.js:262-282 | every alert comes from some entry, and every entry due within three days has its alert listed |
| InspectionUtils.ScheduleWindow | inspection.js:293-305 | a schedule entry is listed exactly when some status entry falls due within the window |
| InspectionUtils.RowErrors | inspection.js:181-188 | one error for a missing item and one for a missing result, none for a complete row |
| InspectionUtils.ValidateResults | inspection.js:181-188 | the loop yields the specified row errors |
| InspectionUtils.ValidateInspectionData | inspection.js:163-192 | the method yields the specified validation errors |
| InspectionUtils.ResultErrorsEmpty | inspection.js:181-188 | no row errors exactly when every row has both item and result |
| InspectionUtils.ValidIff | inspection.js:163-191 | valid exactly when the type, equipment and trimmed inspector are given, and results are non-empty and complete |
| InspectionUtils.ResultErrorsCount | inspection.js:181-188 | the number of errors is missing items plus missing results |
| InspectionUtils.ResultErrorsInOrder | inspection.js:181-188 | errors of earlier rows come first |
| InspectionUtils.GenerateInspectionSummary | inspection.js:207-222 | the total is the number of results |
| InspectionUtils.SummaryCountsPartition | inspection.js:208-212 | the four counts plus unrecognised results make up the total |
| InspectionUtils.SummaryStatusPrecedence | inspection.js:220 | abnormal exactly when some result is abnormal; warning exactly when none is and some needs checking |
| InspectionUtils.GenerateInspectionStatistics | inspection.js:225-255 | the loop computes the specified statistics |
| InspectionUtils.TallyCounts | inspection.js:234-252 | a key is tallied exactly when it occurs, with its number of occurrences |
| InspectionUtils.MapSumBump | inspection.js:236-239 | one increment adds one to the sum of the counts |
| InspectionUtils.TallySum | inspection.js:234-252 | the counts of a tally sum to the number of keys |
| InspectionUtils.StatisticsSumToTotal | inspection.js:225-254 | the total and the counts by type, by equipment and by inspector each add up to the number of records |
| LegacyApp.TablesAgree | app.js:678-726 | the old app's equipment and item tables agree with the inspection manager's configuration |
| LegacyApp.EquipmentLabels | app.js:678-709 | every built-in status has its matching label |
| LegacyApp.UpsertKeepsItems | app.js:353-362 | recording an item keeps every other recorded item |
| LegacyApp.UpsertHasItem | app.js:353-362 | recording an item makes it present |
| LegacyApp.ClicksPreserveValid | app.js:338-362 | clicking an item or an option keeps the completed set and the recorded items in step |
| LegacyApp.CompleteItemIdempotent | app.js:342-345 | clicking a completed item again changes nothing |
| LegacyApp.CompleteItemRecords | app.js:348-362 | clicking a new item records it as completed |
| LegacyApp.LastChoiceWins | app.js:444-455 | choosing two options for one item leaves the last choice |
| LegacyApp.SubmitValidationOrder | app.js:484-507 | rejects a missing inspector, then location, then equipment, then items; otherwise submits |
| LegacyApp.SubmittedContentReadsBack | app.js:516 | the submitted check content reads back every item and result |
| LegacyApp.EGChemApp.constructor | app.js:4-17 | the app starts empty with no step |
| LegacyApp.EGChemApp.SelectInspectionType | app.js:163-184 | sets the type and nothing else |
| LegacyApp.EGChemApp.SelectEquipment | app.js:209-225 | sets the equipment and moves to the inspector step |
| LegacyApp.EGChemApp.SelectLocation | app.js:376-389 | sets the location and nothing else |
| LegacyApp.EGChemApp.SaveCurrentStepData | app.js:290-305 | the inspector or the notes field of the current step is saved trimmed; nothing else changes |
| LegacyApp.EGChemApp.CompleteItem | app.js:338-368 | the click's effect is that of its specification, and validity is kept |
| LegacyApp.EGChemApp.ChooseOption | app.js:431-459 | the choice's effect is that of its specification, and validity is kept |
| LegacyApp.EGChemApp.SubmitInspection | app.js:484-525 | saves the step data, then returns the validated outcome for the saved state |
| Seqs.IndexOf | js/equipment.js:41 | -1 exactly when absent; otherwise the first position of the value |
| Seqs.TrimSpec | js/app.js:405 | trim removes exactly the leading and trailing whitespace |
| Seqs.TrimIdempotent | js/app.js:405 | trimming twice is trimming once |
| Seqs.TrimEmptyIffBlank | js/app.js:719-720 | trim gives "" exactly for all-whitespace text |
| Seqs.SplitJoin | js/googleSheets.js:208-210 | splitting a join on a separator that no part contains gives the parts back |
| Seqs.ToLower | js/app.js:269 | lower-casing keeps the length and maps each character |
| Seqs.NatToStringValue | inspection.js:183 | the decimal text of a number reads back as that number |

## Left out

- The DOM, `alert`/`prompt`/`confirm` dialogs, charts, step navigation and the service worker (`sw.js`) are not modelled. The DOM "completed" class on an item is the `completedItems` set.
- Network transport is not modelled: JSONP, `fetch`, retries, timeouts and `Promise.race`. Every web-app reply is a `Reply` parameter. `Sheets.GoogleSheetsManager.GetEquipmentFromSheet` takes the instant of the call (`now`, for the cache lookup) and the instant the reply arrives (`replyTime`, which `_setCache` stamps) as separate parameters.
- `localStorage` persistence is not modelled. Saved history enters through the constructor.
- The alternative connector files (`googleSheets.js`, `googleSheetsDirect.js`, `googleSheetsJSONP.js`, `googleSheetsServiceAccount.js`, `googleSheetsSimple.js`, `googleSheetsWebApp.js`) are not part of this model.
- Dates and time zones are parameters. The model takes `now` in milliseconds, `today` as a day number and `dayOf` to parse dates. `setDate(+n)` is n × 86 400 000 ms. The Seoul-time date string written to the sheet is a `date` parameter, so an off-by-one date around UTC midnight is not captured.
- Floating point is not modelled. `Math.round` of the percentage is exact half-up integer rounding.
- `toLowerCase` covers ASCII letters only.
- `trim` strips the ECMAScript WhiteSpace and LineTerminator characters. Characters of Unicode category Zs that Unicode may add later are not modelled.
- The "알 수 없음" fallback of `getAlarmStatusText` (js/equipment.js:164) cannot be reached from the four alarm statuses, so `Alarm.AlarmStatusText` has no such case.
- JavaScript falsy values other than `""`, `undefined` and `null` (0, NaN, false) are not modelled for string fields.
- `InspectionUtils.ValidateResults`: a missing item name prints as `undefined` in the source's message. The model uses "".
- `inspection.js`'s `recentTrends` is always an empty list in the source and is left out.
- `formatInspectionDataForDisplay` is left out, because it only formats locale strings.
- `loadEquipmentStatus` (inspection.js:55-67): only the defaults branch is modelled. At construction the connector's `isConnected` is still false, because its initialisation is asynchronous. Were it true, the js/googleSheets.js connector has no `getEquipmentStatus` method, the call throws, and the catch at inspection.js:63-65 writes the same defaults. The root googleSheets.js connector does define `getEquipmentStatus` (googleSheets.js:370); that connector is not part of this model.
- `InspectionUtils.GenerateInspectionStatistics`: the counts are maps, which have no inherited keys. A JavaScript object does: a type, piece of equipment or inspector named "constructor", "toString" or "valueOf" starts from an inherited function, so its count becomes NaN, and one named "__proto__" loses its count. These names are not modelled.
- `InspectionUtils.TypeConfigOf`, `LegacyApp.GetEquipmentForType` and `LegacyApp.GetInspectionItemsForType`: the tables are functions that give None or [] for every unknown type. In the source, `this.inspectionTypes[t]` (inspection.js:135, 152, 158) and `equipmentData[type] || []`, `inspectionItems[type] || []` (app.js:707, 722) find `Object.prototype` members for keys such as "constructor" or "toString", giving `undefined` items or a TypeError. The page's fixed type buttons never pass such keys, so these cases are not modelled.
- `InspectionUtils.InspectionManager.GetEquipmentStatus`: the status store is a list of entries, with no inherited keys. In the source `getEquipmentStatus("constructor")` finds `Object`'s constructor and reports 'normal'. That case is not modelled.
- The sheet's `lastInspectionDate` is taken only as a YYYY-MM-DD string or a date value. The alarm status of other texts is not modelled.
- `InspectionUtils.SortByDate`: stability of `Array.prototype.sort` is not stated. The model states sortedness and permutation.
- `saveToGoogleSheets` in the legacy app calls the connector, which is not part of this model. `LegacyApp.EGChemApp.SubmitInspection` stops at the validated record.
- `Dashboard.InspectionSession.SubmitInspection`: the source first saves the current step's notes. The model expects `SaveNotes` to have been called before.
- JavaScript object key order is not modelled. The statistics are maps.

## Findings

| source | as written | input that shows it | evidently intended | confidence | as-written member | corrected member |
|---|---|---|---|---|---|---|
| js/googleSheets.js:331-334 | the team table lists 맨틀, 교반기 and 칠러 under E only, although sheet 1-B's own list (js/app.js:310-313) holds them too | a 1-B reply whose rows name only 맨틀, 교반기 or 칠러: it is taken for team E's data and every row is dropped | equipment on the requesting sheet's own list is never filtered out of its reply | not executed | Sheets.SharedEquipmentDroppedOnB | Sheets.FixedKeepsOwnSheetEquipment |
