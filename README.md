# TimelyCare medication logic in Dafny

TimelyCare is a medication reminder app for Android phones with a companion
Wear OS watch app. This project models the logic at the core of both apps and
proves properties of it:

- **Schedule evaluator** (`Schedule`). It decides whether a medication is due
  on a calendar date. The date range is inclusive, and a Daily or a
  weekday-set frequency rule is applied. The calendar first drops malformed
  medications, then expands each medication that is due into one
  `(medication, time)` dose entry per time of day.
- **Phone medication store** (`PhoneStore`). An in-memory list with add,
  update by id, delete by id and lookup by id.
- **Phone-to-watch sync text** (`WatchCodec`, `WatchStore`). The phone writes
  each medication as `id,name,dosage,firstTime,frequency` and joins the
  records with `|`. The watch splits the text back apart, keeps only segments
  with exactly five fields, and stores and reloads the same text. The data
  listener applies each relevant change event to the watch's repository.
- **Medication form** (`MedicationForm`, `FrequencyText`, `FrequencyModal`,
  `TimePicker`, `Clock`). Validation, the frequency text (`"Daily"` or
  `"Mon, Wed"`) with its parsers and the card label, and the weekday
  selection dialog. Also the time-entry dialog with its 12-hour to 24-hour
  conversion and its add and edit of the time list, the time-text helpers,
  and the record that Save builds.
- **Emergency-contact form** (`ContactForm`). Phone-number sanitising, the
  name and phone checks, and the form's state as it is edited and submitted.
- **Synthetic vitals history** (`BloodPressure`, `HeartRate`, `Glucose`,
  `DateNav`). For a past date, each of today's readings moves by a bounded
  step and is clamped and classified. Then the day's average, extremes and
  current reading are recomputed. The date strip's list and selected index
  are modelled as well.
- **Watch settings** (`WatchSettings`, `ComplicationOrder`). Decoding the
  preference store with its defaults, the writers, and the set of enabled
  complications, in which Settings and All Meds are always enabled. Also the
  fixed order in which the complications are listed.

The form states, both repositories and the date strip are classes whose
methods update their fields. The rest is functions and lemmas. `Lists` and
`Text` hold the parts of the Kotlin standard library that the core relies on:
`filter`, the stable `sortedBy`, `minByOrNull`/`maxByOrNull`,
`average().toInt()`, `split`, `joinToString`, `trim` and `isDigit`.

Some inputs are parameters here:

- The random steps of the vitals generators are the input `deltas`, each
  within the range that `nextInt` draws from. A generator is therefore a
  function of the template, the date and the steps, which makes it
  deterministic per date, as the date-seeded random source makes the original.
- "MM/dd/yyyy" date parsing and formatting are the parameters `parseDate` and
  `formatDate`.
- Dates are epoch-day integers, and `today` and the fresh medication id are
  inputs.
- The existing-number check of the contact form is the predicate
  `isPhoneNumberExists`.
- The text that `Frequency.toString` gives on the wire is the function
  `freqText`.

## Model

| member | source | states |
|---|---|---|
| Clock.NumberText | app/src/main/java/com/example/timelycare/ui/screens/medications/TimePickerDialog.kt:35 | the unpadded hour text (`toString`) has one or two digits and reads back as the number |
| Clock.TwoDigitText | app/src/main/java/com/example/timelycare/ui/screens/medications/TimePickerDialog.kt:36 | `%02d`: exactly two digits that read back as the number |
| Clock.FormatClock | app/src/main/java/com/example/timelycare/ui/screens/medications/AddEditMedicationScreen.kt:46-48 | the "h:mm a" text of a time has 7 or 8 characters, and none of them is `,` or `|` |
| Clock.ClockRoundTrip | app/src/main/java/com/example/timelycare/ui/screens/medications/AddEditMedicationScreen.kt:151-153 | parsing the "h:mm a" text of any time gives that time back |
| Clock.ParseClock | app/src/main/java/com/example/timelycare/ui/screens/medications/AddEditMedicationScreen.kt:151-153 | a text that parses is one or two hour digits at most 12, a colon, two minute digits, a space and AM or PM; the time has that minute, that hour modulo 12, and an hour below 12 exactly for AM |
| Clock.ReparseClock | app/src/main/java/com/example/timelycare/ui/screens/medications/AddEditMedicationScreen.kt:151-153 | a 12-hour text that parses gives the same time once written out and parsed again |
| Clock.ParseTwentyFour | app/src/main/java/com/example/timelycare/ui/screens/medications/AddEditMedicationScreen.kt:155-157 | a text that parses is two digits, a colon and two digits, read as that hour (24 wrapping to 0) and that minute; "24:00" is midnight, as the SMART resolver reads the end of the day |
| Clock.TwentyFourRoundTrip | app/src/main/java/com/example/timelycare/ui/screens/medications/AddEditMedicationScreen.kt:155-157 | the two-digit 24-hour text of any time parses back to it |
| MedicationModel.WeekdayPeriodic | app/src/main/java/com/example/timelycare/ui/screens/calendar/MedicationListForDate.kt:233-241 | the weekday of a date repeats every seven days |
| MedicationModel.WeekdaySuccessor | app/src/main/java/com/example/timelycare/ui/screens/calendar/MedicationListForDate.kt:233-241 | epoch day 0 (1970-01-01) is a Thursday, and the day after any date has the next weekday, Sunday wrapping to Monday |
| MedicationModel.FullWeek | app/src/main/java/com/example/timelycare/ui/components/FrequencySelectionModal.kt:49 | a weekday set has seven members exactly when it holds every day, so `size == 7` means "all days" |
| Schedule.IsScheduledForDate | app/src/main/java/com/example/timelycare/ui/screens/calendar/MedicationListForDate.kt:213-252 | not due before a present start date or after a present end date; an absent bound does not restrict; Daily is due on every date in range; SpecificDays is due exactly on in-range dates whose weekday is in the set; an empty set is never due; every path gives a value |
| Schedule.RangeIsInclusive | app/src/main/java/com/example/timelycare/ui/screens/calendar/MedicationListForDate.kt:224-225 | the start and end dates themselves pass the range check |
| Schedule.SafeMedications | app/src/main/java/com/example/timelycare/ui/screens/calendar/CalendarScreen.kt:22-30 | keeps exactly the medications whose name and dosage are both non-blank, as a subsequence of the input in its order |
| Schedule.SafeMedicationsKeepsWellFormed | app/src/main/java/com/example/timelycare/ui/screens/calendar/CalendarScreen.kt:25-26 | a list of well-formed medications is kept whole |
| Schedule.SafeMedicationsIdempotent | app/src/main/java/com/example/timelycare/ui/screens/calendar/CalendarScreen.kt:22-30 | filtering twice is filtering once |
| Schedule.ScheduledMedications | app/src/main/java/com/example/timelycare/ui/screens/calendar/MedicationListForDate.kt:38-45 | keeps exactly the medications that are due on the date |
| Schedule.TimesOf | app/src/main/java/com/example/timelycare/ui/screens/calendar/MedicationListForDate.kt:49-51 | one `(medication, time)` entry per time of the medication, in time order |
| Schedule.Expand | app/src/main/java/com/example/timelycare/ui/screens/calendar/MedicationListForDate.kt:48-52 | the number of entries is the sum of the medications' time counts |
| Schedule.DosesForDate | app/src/main/java/com/example/timelycare/ui/screens/calendar/MedicationListForDate.kt:38-52 | the number of dose entries is the sum of the time counts of the due medications |
| Schedule.ExpandConcat | app/src/main/java/com/example/timelycare/ui/screens/calendar/MedicationListForDate.kt:48-52 | the entries keep medication order: those of a prefix come before those of the rest |
| Schedule.ExpandMembers | app/src/main/java/com/example/timelycare/ui/screens/calendar/MedicationListForDate.kt:48-52 | an entry is present exactly when its medication is in the list and its time is one of that medication's times |
| Schedule.DosesForDateMembers | app/src/main/java/com/example/timelycare/ui/screens/calendar/MedicationListForDate.kt:38-52 | a dose entry exists for a date exactly for each due medication paired with each of its times |
| Schedule.UnscheduledContributesNothing | app/src/main/java/com/example/timelycare/ui/screens/calendar/MedicationListForDate.kt:38-45 | a medication that is not due has no entry |
| Schedule.ScheduleExamples | app/src/main/java/com/example/timelycare/ui/screens/calendar/MedicationListForDate.kt:224-242 | a Daily medication for 2024-01-01..2024-01-10 is due on 01-05 but not on 2023-12-31 or 01-11; a Monday/Wednesday rule is due on Monday 01-01 and not on Tuesday 01-02 |
| PhoneStore.ReplaceById | app/src/main/java/com/example/timelycare/data/MedicationRepository.kt:27-29 | same length; each entry with the record's id becomes the record, and every other entry stays |
| PhoneStore.ReplaceAbsentId | app/src/main/java/com/example/timelycare/data/MedicationRepository.kt:27-29 | an update whose id is not stored leaves the list unchanged |
| PhoneStore.RemoveById | app/src/main/java/com/example/timelycare/data/MedicationRepository.kt:34 | no entry with that id remains; every other entry is kept, in order (a subsequence) |
| PhoneStore.RemoveByIdIdempotent | app/src/main/java/com/example/timelycare/data/MedicationRepository.kt:34 | deleting the same id twice is deleting it once |
| PhoneStore.FindById | app/src/main/java/com/example/timelycare/data/MedicationRepository.kt:53-55 | none exactly when no entry has the id; otherwise the first entry with that id |
| PhoneStore.DeletedIsNotFound | app/src/main/java/com/example/timelycare/data/MedicationRepository.kt:33-36 | after a delete, the lookup of that id finds nothing |
| PhoneStore.UpdatedIsFound | app/src/main/java/com/example/timelycare/data/MedicationRepository.kt:26-31 | after updating a stored id, the lookup finds the new record |
| PhoneStore.AddedIsFound | app/src/main/java/com/example/timelycare/data/MedicationRepository.kt:21-24 | an appended record is found by its id unless an earlier record has the same id (duplicates are not rejected) |
| PhoneStore.MedicationRepository.constructor | app/src/main/java/com/example/timelycare/data/MedicationRepository.kt:15 | the store starts empty |
| PhoneStore.MedicationRepository.AddMedication | app/src/main/java/com/example/timelycare/data/MedicationRepository.kt:21-24 | appends the record at the end; earlier entries are unchanged |
| PhoneStore.MedicationRepository.UpdateMedication | app/src/main/java/com/example/timelycare/data/MedicationRepository.kt:26-31 | the list becomes `ReplaceById` of the old list |
| PhoneStore.MedicationRepository.DeleteMedication | app/src/main/java/com/example/timelycare/data/MedicationRepository.kt:33-36 | the list becomes `RemoveById` of the old list |
| PhoneStore.MedicationRepository.GetMedicationById | app/src/main/java/com/example/timelycare/data/MedicationRepository.kt:53-55 | no result exactly when no stored medication has the id; a result is the FIRST stored medication with that id, as `find` returns |
| WatchCodec.Encode | wear/src/main/java/com/example/wear/MedicationRepository.kt:43-48 | an empty list is stored as the empty text |
| WatchCodec.ParseRecord | wear/src/main/java/com/example/wear/WearDataListenerService.kt:43-46 | a record exactly when the segment has five `,`-parts, and its fields are those parts in order |
| WatchCodec.ParseSegments | wear/src/main/java/com/example/wear/WearDataListenerService.kt:42-47 | no more records than segments |
| WatchCodec.Parse | wear/src/main/java/com/example/wear/WearDataListenerService.kt:39-48 | the empty text decodes to no records; otherwise at most one record per `|`-segment |
| WatchCodec.ParseSegmentsConcat | wear/src/main/java/com/example/wear/WearDataListenerService.kt:42-47 | decoding is segment by segment, so a skipped segment does not disturb the others and order is kept |
| WatchCodec.ParseSingleSegment | wear/src/main/java/com/example/wear/WearDataListenerService.kt:43-46 | a segment gives one record when it has five parts and none otherwise |
| WatchCodec.RecordRoundTrip | wear/src/main/java/com/example/wear/MedicationRepository.kt:44-46 | a record whose fields hold no delimiter decodes back from its text, which holds no `|` |
| WatchCodec.SegmentsRoundTrip | wear/src/main/java/com/example/wear/MedicationRepository.kt:59-64 | such records decode back from their texts, in order |
| WatchCodec.RoundTrip | wear/src/main/java/com/example/wear/MedicationRepository.kt:43-65 | decoding the stored text of delimiter-free records, the empty list included, gives the same records in order |
| WatchCodec.SegmentCount | app/src/main/java/com/example/timelycare/service/MedicationDataService.kt:29 | the text of n >= 1 delimiter-free records has n `|`-segments |
| WatchCodec.ParsedSegmentsClean | wear/src/main/java/com/example/wear/WearDataListenerService.kt:42-47 | records decoded from segments without `|` hold no delimiter |
| WatchCodec.ParsedIsClean | wear/src/main/java/com/example/wear/MedicationRepository.kt:56-65 | no field of any decoded record holds a delimiter, whatever the text |
| WatchCodec.ReparseIsStable | wear/src/main/java/com/example/wear/MedicationRepository.kt:43-65 | what the watch decodes, it writes and decodes again to the same list |
| WatchCodec.FirstTimeText | app/src/main/java/com/example/timelycare/service/MedicationDataService.kt:30 | the first time formatted "h:mm a", or "No time" when there is none |
| WatchCodec.Project | app/src/main/java/com/example/timelycare/service/MedicationDataService.kt:30-31 | the record keeps the id, name and dosage and sends the first time's text; it is free of delimiters exactly when the id, name, dosage and frequency text are |
| WatchCodec.ProjectAll | app/src/main/java/com/example/timelycare/service/MedicationDataService.kt:29-31 | one watch record per medication, in list order |
| WatchCodec.MedicationsToJson | app/src/main/java/com/example/timelycare/service/MedicationDataService.kt:27-33 | no medications give the empty text |
| WatchCodec.OnlyFirstTimeSent | app/src/main/java/com/example/timelycare/service/MedicationDataService.kt:30 | times after the first do not change what is sent |
| WatchCodec.SyncRoundTrip | app/src/main/java/com/example/timelycare/service/MedicationDataService.kt:27-33 | when no sent field holds `,` or `|`, the watch decodes exactly the projected records: the same count, fields and order |
| WatchStore.WatchMedicationRepository.constructor | wear/src/main/java/com/example/wear/MedicationRepository.kt:22-24 | starts with the decoding of the stored text, where a missing key reads as "" |
| WatchStore.WatchMedicationRepository.UpdateMedications | wear/src/main/java/com/example/wear/MedicationRepository.kt:26-30 | replaces the whole list (no merge) and stores its encoding |
| WatchStore.WatchMedicationRepository.LoadMedications | wear/src/main/java/com/example/wear/MedicationRepository.kt:50-54 | the list becomes the decoding of the unchanged stored text |
| WatchStore.RestartAfterUpdate | wear/src/main/java/com/example/wear/MedicationRepository.kt:22-30 | after an update with delimiter-free records, a repository reopened on the stored text holds exactly that list |
| WatchStore.LastUpdate | wear/src/main/java/com/example/wear/WearDataListenerService.kt:17-36 | none exactly when no event is a change on `/medication_data`; otherwise the text of the last such event |
| WatchStore.LastUpdateAppend | wear/src/main/java/com/example/wear/WearDataListenerService.kt:17-36 | a relevant event overrides what came before; any other event leaves it |
| WatchStore.OnDataChanged | wear/src/main/java/com/example/wear/WearDataListenerService.kt:12-37 | only changed items on `/medication_data` update the watch; the last one wins, and the list is the decoding of its text and consistent with what is stored |
| MedicationForm.ParseDateString | app/src/main/java/com/example/timelycare/ui/screens/medications/AddEditMedicationScreen.kt:108-115 | blank text is no date; other text is what the date parser gives |
| MedicationForm.StartDateError | app/src/main/java/com/example/timelycare/ui/screens/medications/AddEditMedicationScreen.kt:123-127 | no start-date message exactly when the text parses to a date; "Start date is required" for blank text |
| MedicationForm.EndDateError | app/src/main/java/com/example/timelycare/ui/screens/medications/AddEditMedicationScreen.kt:130-145 | no end-date message exactly when the end date is given, parses, and is not before a valid start date |
| MedicationForm.CheckForm | app/src/main/java/com/example/timelycare/ui/screens/medications/AddEditMedicationScreen.kt:117-149 | no message at all exactly when name and dosage are non-blank, there is a time, both dates parse and the end is not before the start; the name, dosage and times messages |
| MedicationForm.SameDayRangeAccepted | app/src/main/java/com/example/timelycare/ui/screens/medications/AddEditMedicationScreen.kt:136-145 | an end date equal to the start date is accepted |
| MedicationForm.ParseTimeString | app/src/main/java/com/example/timelycare/ui/screens/medications/AddEditMedicationScreen.kt:151-161 | the 12-hour reading when the 12-hour pattern matches, else the 24-hour reading (so "24:00" is midnight), else nothing |
| MedicationForm.ParseTimeToHourMinute | app/src/main/java/com/example/timelycare/ui/screens/medications/AddEditMedicationScreen.kt:207-214 | the hour and minute of the 12-hour reading when the text parses, and (9, 0) when it does not; always a valid hour and minute |
| MedicationForm.HourMinuteOfFormatted | app/src/main/java/com/example/timelycare/ui/screens/medications/AddEditMedicationScreen.kt:207-214 | the text of a time reads back as its hour and minute |
| MedicationForm.SortMedicationTimes | app/src/main/java/com/example/timelycare/ui/screens/medications/AddEditMedicationScreen.kt:216-224 | a permutation of the texts ordered by parsed time, the unparsable ones placed as 09:00 |
| MedicationForm.SortMedicationTimesStable | app/src/main/java/com/example/timelycare/ui/screens/medications/AddEditMedicationScreen.kt:216-224 | texts with the same sort position keep their relative order |
| MedicationForm.ParsedTimes | app/src/main/java/com/example/timelycare/ui/screens/medications/AddEditMedicationScreen.kt:567 | at most one time per text; every parseable text's time is present, and nothing else; with ParsedTimesConcat and ParsedTimesSingle, the parseable texts' times in their order and multiplicity |
| MedicationForm.ParsedTimesConcat | app/src/main/java/com/example/timelycare/ui/screens/medications/AddEditMedicationScreen.kt:567 | the times of two lists one after the other are the times of the first, then those of the second |
| MedicationForm.ParsedTimesSingle | app/src/main/java/com/example/timelycare/ui/screens/medications/AddEditMedicationScreen.kt:567 | one text contributes its time when it parses and nothing otherwise |
| MedicationForm.EndOfDayIsMidnight | app/src/main/java/com/example/timelycare/ui/screens/medications/AddEditMedicationScreen.kt:151-161 | "24:00" fails the 12-hour pattern and is read by the 24-hour one as midnight |
| MedicationForm.SavedTimes | app/src/main/java/com/example/timelycare/ui/screens/medications/AddEditMedicationScreen.kt:567-570 | at least one time: the parsed times, or [09:00] when none parses |
| MedicationForm.ParsedFormattedTimes | app/src/main/java/com/example/timelycare/ui/screens/medications/AddEditMedicationScreen.kt:567-570 | the texts of stored times parse back to exactly those times, in order |
| MedicationForm.TrimmedOr | app/src/main/java/com/example/timelycare/ui/screens/medications/AddEditMedicationScreen.kt:572-573 | the trimmed text, or the fallback when the text is blank |
| MedicationForm.BuildMedication | app/src/main/java/com/example/timelycare/ui/screens/medications/AddEditMedicationScreen.kt:580-604 | editing keeps the id and a new record gets a fresh one; name and dosage are trimmed or defaulted and never blank; at least one time; the parsed frequency (never an empty day set), dates and trimmed instructions |
| MedicationForm.BuiltIsWellFormed | app/src/main/java/com/example/timelycare/ui/screens/medications/AddEditMedicationScreen.kt:572-573 | a saved record always passes the calendar's malformed-record filter |
| MedicationForm.ValidSaveSchedule | app/src/main/java/com/example/timelycare/ui/screens/medications/AddEditMedicationScreen.kt:136-145 | a record saved from a valid form is not due outside its date range, and a daily one is due on both of its bounds |
| MedicationForm.TimeTexts | app/src/main/java/com/example/timelycare/ui/screens/medications/AddEditMedicationScreen.kt:85-90 | one "h:mm a" text per stored time, in order |
| MedicationForm.ResaveKeepsTimesAndFrequency | app/src/main/java/com/example/timelycare/ui/screens/medications/AddEditMedicationScreen.kt:61-90 | opening a stored medication and saving it unchanged keeps its times and its frequency, up to normalising no days or all days to Daily |
| MedicationForm.InitialInput | app/src/main/java/com/example/timelycare/ui/screens/medications/AddEditMedicationScreen.kt:61-91 | for an edited medication: its name, dosage, type label, special instructions, frequency text, date texts and time texts; for a new one: empty name, dosage and instructions, type "Pill", "Daily", today and 30 days later, and the three default times |
| MedicationForm.AddEditForm.constructor | app/src/main/java/com/example/timelycare/ui/screens/medications/AddEditMedicationScreen.kt:60-105 | opens on the initial fields with no message shown |
| MedicationForm.AddEditForm.ValidateForm | app/src/main/java/com/example/timelycare/ui/screens/medications/AddEditMedicationScreen.kt:117-149 | sets the five messages to those of `CheckForm` and reports whether all are empty |
| MedicationForm.AddEditForm.Save | app/src/main/java/com/example/timelycare/ui/screens/medications/AddEditMedicationScreen.kt:563-611 | the error fields become `CheckForm` of the form; stores nothing for an invalid form; otherwise the built record replaces the edited entry or is appended |
| FrequencyText.DayFromToken | app/src/main/java/com/example/timelycare/ui/screens/medications/AddEditMedicationScreen.kt:170-179 | the day whose name is the trimmed token, or none when no day has that name |
| FrequencyText.TokenDays | app/src/main/java/com/example/timelycare/ui/screens/medications/AddEditMedicationScreen.kt:168-180 | exactly the days named by the tokens; unknown tokens are dropped |
| FrequencyText.ParseDaySet | app/src/main/java/com/example/timelycare/ui/components/FrequencySelectionModal.kt:28-46 | "Daily" is the whole week; other text gives the days named between `", "`, possibly none |
| FrequencyText.ParseFrequency | app/src/main/java/com/example/timelycare/ui/screens/medications/AddEditMedicationScreen.kt:163-187 | "Daily" is Daily; otherwise the named days, and Daily when none is named, so never an empty day set |
| FrequencyText.FormatFrequency | app/src/main/java/com/example/timelycare/ui/screens/medications/AddEditMedicationScreen.kt:50-58 | "Daily" for Daily and for all seven days; otherwise the day names joined by ", ", which is never "Daily" |
| FrequencyText.FrequencyLabel | app/src/main/java/com/example/timelycare/ui/screens/medications/MedicationCard.kt:126-137 | "Daily" for Daily, "Custom" for no days, otherwise the joined day names, which read back as the set |
| FrequencyText.NameRecognised | app/src/main/java/com/example/timelycare/ui/screens/medications/AddEditMedicationScreen.kt:170-177 | every day name reads back as its day and holds no comma |
| FrequencyText.DaysTextRoundTrip | app/src/main/java/com/example/timelycare/ui/components/FrequencySelectionModal.kt:28-46 | parsing the joined day names gives exactly the set back, for every set |
| FrequencyText.FormatParseRoundTrip | app/src/main/java/com/example/timelycare/ui/screens/medications/AddEditMedicationScreen.kt:50-58 | parsing the formatted frequency gives it back, with no days and all days both read as Daily |
| FrequencyText.LabelSpellsOutFullWeek | app/src/main/java/com/example/timelycare/ui/screens/medications/MedicationCard.kt:133 | a seven-day set is "Daily" in the form but spelled out on the card |
| FrequencyModal.DailyCard | app/src/main/java/com/example/timelycare/ui/components/FrequencySelectionModal.kt:88-93 | a full selection becomes empty; any other becomes the full week |
| FrequencyModal.Toggle | app/src/main/java/com/example/timelycare/ui/components/FrequencySelectionModal.kt:136-140 | flips the pressed day and leaves every other day as it was |
| FrequencyModal.ToggleTwice | app/src/main/java/com/example/timelycare/ui/components/FrequencySelectionModal.kt:136-140 | pressing the same day twice restores the selection |
| FrequencyModal.ToggleCommutes | app/src/main/java/com/example/timelycare/ui/components/FrequencySelectionModal.kt:136-140 | presses of two days give the same selection in either order |
| FrequencyModal.DoneText | app/src/main/java/com/example/timelycare/ui/components/FrequencySelectionModal.kt:201-211 | nothing is emitted on an empty selection; "Daily" exactly for the full week; what is emitted parses back to the selection |
| FrequencyModal.DoneThenParseFrequency | app/src/main/java/com/example/timelycare/ui/components/FrequencySelectionModal.kt:203-207 | the form reads the emitted text as Daily for the full week and as exactly the selected days otherwise |
| FrequencyModal.FrequencyModal.constructor | app/src/main/java/com/example/timelycare/ui/components/FrequencySelectionModal.kt:48 | opens on the parsed current frequency |
| FrequencyModal.FrequencyModal.IsAllDaysSelected | app/src/main/java/com/example/timelycare/ui/components/FrequencySelectionModal.kt:49 | true exactly when every day is selected |
| FrequencyModal.FrequencyModal.PressDaily | app/src/main/java/com/example/timelycare/ui/components/FrequencySelectionModal.kt:88-93 | the selection becomes `DailyCard` of the old one |
| FrequencyModal.FrequencyModal.PressDay | app/src/main/java/com/example/timelycare/ui/components/FrequencySelectionModal.kt:136-140 | the selection becomes `Toggle` of the old one |
| FrequencyModal.FrequencyModal.Done | app/src/main/java/com/example/timelycare/ui/components/FrequencySelectionModal.kt:201-211 | emits `DoneText` of the selection, which parses back to it |
| FrequencyModal.ReopenAfterDone | app/src/main/java/com/example/timelycare/ui/components/FrequencySelectionModal.kt:201-211 | reopening the dialog on what it emitted shows the same selection |
| TimePicker.DisplayHour | app/src/main/java/com/example/timelycare/ui/screens/medications/TimePickerDialog.kt:35 | 12 for hour 0, the hour less twelve after noon, else the hour; always 1 to 12 and equal modulo 12 |
| TimePicker.To24 | app/src/main/java/com/example/timelycare/ui/screens/medications/TimePickerDialog.kt:240-245 | a 24-hour hour below 12 exactly for AM, which is shown again as the same 12-hour hour |
| TimePicker.DisplayRoundTrip | app/src/main/java/com/example/timelycare/ui/screens/medications/TimePickerDialog.kt:35-37 | showing any 24-hour hour and converting it back gives that hour |
| TimePicker.InitialTime | app/src/main/java/com/example/timelycare/ui/screens/medications/TimePickerDialog.kt:29-33 | the edited time, or (9, 0) when the index is not a position of the list |
| TimePicker.ToIntOrNull | app/src/main/java/com/example/timelycare/ui/screens/medications/TimePickerDialog.kt:232-233 | a number exactly for non-empty digit text whose value fits an `Int`, and then that value |
| TimePicker.FieldError | app/src/main/java/com/example/timelycare/ui/screens/medications/TimePickerDialog.kt:82-87 | no error exactly when the text is a number in range; "Required" for empty text |
| TimePicker.HourError | app/src/main/java/com/example/timelycare/ui/screens/medications/TimePickerDialog.kt:82-87 | no error exactly when the text is a number 1 to 12; "Required" for empty text; "1-12 only" for a number out of range |
| TimePicker.MinuteError | app/src/main/java/com/example/timelycare/ui/screens/medications/TimePickerDialog.kt:127-132 | no error exactly when the text is a number 0 to 59; "Required" for empty text; "0-59 only" for a number out of range |
| TimePicker.AcceptedIsNumberOrEmpty | app/src/main/java/com/example/timelycare/ui/screens/medications/TimePickerDialog.kt:80-87 | text the field accepted is never reported as "Invalid" |
| TimePicker.AddTime | app/src/main/java/com/example/timelycare/ui/screens/medications/TimePickerDialog.kt:249-253 | a text already in the list changes nothing; otherwise the list gains it, sorted, one longer |
| TimePicker.EditTime | app/src/main/java/com/example/timelycare/ui/screens/medications/TimePickerDialog.kt:254-259 | the entry is replaced and the list sorted; the length stays |
| TimePicker.NewTimeText | app/src/main/java/com/example/timelycare/ui/screens/medications/TimePickerDialog.kt:240-247 | the text reads back, under the 12-hour pattern, as the chosen hour converted to 24 hours and the chosen minute, and ends in AM exactly for AM |
| TimePicker.CanConfirm | app/src/main/java/com/example/timelycare/ui/screens/medications/TimePickerDialog.kt:232-237 | OK acts exactly when both fields would show no error and no error is shown |
| TimePicker.ConfirmOutcome | app/src/main/java/com/example/timelycare/ui/screens/medications/TimePickerDialog.kt:230-263 | stays open exactly unless hour 1-12 and minute 0-59 with no error; otherwise adding passes `AddTime` of the new time's text, editing a valid index passes `EditTime` at that index, an invalid index passes nothing; an edit keeps the length |
| TimePicker.NewTimeTextReadsBack | app/src/main/java/com/example/timelycare/ui/screens/medications/TimePickerDialog.kt:247 | the new time's text reads back as the chosen 24-hour time |
| TimePicker.ConfirmUnchangedKeepsTime | app/src/main/java/com/example/timelycare/ui/screens/medications/TimePickerDialog.kt:35-37 | opening on a time and pressing OK at once produces the same time text |
| TimePicker.TimePickerDialog.constructor | app/src/main/java/com/example/timelycare/ui/screens/medications/TimePickerDialog.kt:29-40 | opens on the initial time, shown as the 12-hour hour, two-digit minute and AM/PM, with no errors |
| TimePicker.TimePickerDialog.EditHour | app/src/main/java/com/example/timelycare/ui/screens/medications/TimePickerDialog.kt:79-88 | takes text of at most two digits and sets its error; ignores any other text |
| TimePicker.TimePickerDialog.EditMinute | app/src/main/java/com/example/timelycare/ui/screens/medications/TimePickerDialog.kt:124-133 | the same for the minute, with the range 0 to 59 |
| TimePicker.TimePickerDialog.SelectAM | app/src/main/java/com/example/timelycare/ui/screens/medications/TimePickerDialog.kt:181-213 | sets AM or PM and nothing else |
| TimePicker.TimePickerDialog.Confirm | app/src/main/java/com/example/timelycare/ui/screens/medications/TimePickerDialog.kt:230-263 | the outcome is `ConfirmOutcome` of the dialog's state; adding a new time lengthens the list by one |
| ContactForm.SanitizePhone | app/src/main/java/com/example/timelycare/ui/screens/contacts/AddContactForm.kt:261-267 | digits only and no longer than the input; for the Philippines a number of two or more digits loses one leading zero; elsewhere it is the digits alone |
| ContactForm.SanitizeIdempotentElsewhere | app/src/main/java/com/example/timelycare/ui/screens/contacts/AddContactForm.kt:262-266 | outside the Philippines, sanitising twice is sanitising once |
| ContactForm.SanitizePhilippinesAgain | app/src/main/java/com/example/timelycare/ui/screens/contacts/AddContactForm.kt:263-264 | for the Philippines, a second pass only removes a zero that still leads |
| ContactForm.SanitizePhilippinesNotIdempotent | app/src/main/java/com/example/timelycare/ui/screens/contacts/AddContactForm.kt:263-264 | for the Philippines, a number with two leading zeros loses one per pass |
| ContactForm.NameError | app/src/main/java/com/example/timelycare/ui/screens/contacts/AddContactForm.kt:53-63 | no error exactly when the name is not blank and has at least two UTF-16 units (Kotlin `length`) before trimming |
| ContactForm.PhoneError | app/src/main/java/com/example/timelycare/ui/screens/contacts/AddContactForm.kt:65-83 | checked in order: required, at least 7 UTF-16 units, digits only, not already known; valid exactly when none applies |
| ContactForm.PaddedSingleLetterPasses | app/src/main/java/com/example/timelycare/ui/screens/contacts/AddContactForm.kt:53-63 | " a" passes although it trims to one character |
| ContactForm.SingleEmojiNamePasses | app/src/main/java/com/example/timelycare/ui/screens/contacts/AddContactForm.kt:58 | a name of one character beyond the Basic Multilingual Plane has `length` 2 and passes |
| ContactForm.InitialPhone | app/src/main/java/com/example/timelycare/ui/screens/contacts/AddContactForm.kt:41 | the edited contact's number sanitised for the country, or empty for a new contact |
| ContactForm.PhoneAfterCountryChangeAsWritten | app/src/main/java/com/example/timelycare/ui/screens/contacts/AddContactForm.kt:41 | as written the field's state is keyed on the country, so a new country re-creates it; for a new contact that is the empty text |
| ContactForm.SwitchingCountryDropsTypedNumber | app/src/main/java/com/example/timelycare/ui/screens/contacts/AddContactForm.kt:41 | on a new contact, switching to a country other than the Philippines empties a typed number that the handler keeps whole |
| ContactForm.AddContactForm.constructor | app/src/main/java/com/example/timelycare/ui/screens/contacts/AddContactForm.kt:31-45 | opens on the edited contact (its known country code, else the Philippines, and its sanitised number) or empty on the Philippines |
| ContactForm.AddContactForm.EditName | app/src/main/java/com/example/timelycare/ui/screens/contacts/AddContactForm.kt:120-123 | sets the name and clears its error; nothing else changes |
| ContactForm.AddContactForm.EditPhone | app/src/main/java/com/example/timelycare/ui/screens/contacts/AddContactForm.kt:151-154 | keeps the sanitised form of the typed number and clears its error |
| ContactForm.AddContactForm.SelectCountry | app/src/main/java/com/example/timelycare/ui/screens/contacts/AddContactForm.kt:142-145 | sets the country and sanitises the number for it, which keeps a non-Philippine number unchanged |
| ContactForm.AddContactForm.ValidateForm | app/src/main/java/com/example/timelycare/ui/screens/contacts/AddContactForm.kt:50-86 | sets both messages and is true exactly when both are empty |
| ContactForm.AddContactForm.SubmitAdd | app/src/main/java/com/example/timelycare/ui/screens/contacts/AddContactForm.kt:214-227 | the error fields become `NameError`/`PhoneError` of the submitted values; a valid form yields the contact with the trimmed name, then clears name and number and resets the country to the Philippines; an invalid form keeps the fields |
| ContactForm.AddContactForm.SubmitEdit | app/src/main/java/com/example/timelycare/ui/screens/contacts/AddContactForm.kt:185-195 | the error fields become `NameError`/`PhoneError` of the form; a valid form yields the contact with the form's values; the fields are kept |
| DateNav.HistoryItems | app/src/main/java/com/example/timelycare/ui/screens/bloodpressure/BloodPressureScreen.kt:40-42 | one item per history day, with its date and label, in order |
| DateNav.BloodPressureItems | app/src/main/java/com/example/timelycare/ui/screens/bloodpressure/BloodPressureScreen.kt:37-44 | "Today" first, then every history day in order |
| DateNav.HeartRateItems | app/src/main/java/com/example/timelycare/ui/screens/heartrate/HeartRateScreen.kt:42-50 | "Today" is put in front only when no history day has today's date; today is always present |
| DateNav.GlucoseItems | app/src/main/java/com/example/timelycare/ui/screens/glucose/GlucoseScreen.kt:37-45 | "Today" is added at the end only when no history day has today's date; today is always present |
| DateNav.TodayAddedOnce | app/src/main/java/com/example/timelycare/ui/screens/heartrate/HeartRateScreen.kt:46-47 | when the history lacks today, the added item is the only one dated today |
| DateNav.PreviousThenNext | app/src/main/java/com/example/timelycare/ui/screens/bloodpressure/BloodPressureScreen.kt:106-115 | a step back followed by a step forward returns to the same position |
| DateNav.ArrowsKeepBounds | app/src/main/java/com/example/timelycare/ui/screens/bloodpressure/BloodPressureScreen.kt:106-115 | both arrows keep a valid position valid; "previous" never decreases it and "next" never increases it |
| DateNav.ShownFor | app/src/main/java/com/example/timelycare/ui/screens/bloodpressure/BloodPressureScreen.kt:53-64 | today's own data for an empty list or a selection dated today; otherwise a synthetic day for the selected date |
| DateNav.DateNavigator.constructor | app/src/main/java/com/example/timelycare/ui/screens/bloodpressure/BloodPressureScreen.kt:45 | a new list starts at position 0 |
| DateNav.DateNavigator.Previous | app/src/main/java/com/example/timelycare/ui/screens/bloodpressure/BloodPressureScreen.kt:106-110 | moves one step back only below the last position |
| DateNav.DateNavigator.Next | app/src/main/java/com/example/timelycare/ui/screens/bloodpressure/BloodPressureScreen.kt:111-115 | moves one step towards today only above position 0 |
| DateNav.DateNavigator.CoerceIndex | app/src/main/java/com/example/timelycare/ui/screens/bloodpressure/BloodPressureScreen.kt:46-50 | pulls the index into the list's positions when the list is not empty |
| DateNav.DateNavigator.Shown | app/src/main/java/com/example/timelycare/ui/screens/bloodpressure/BloodPressureScreen.kt:53-64 | what is shown is `ShownFor` of the selection, never a synthetic day for today |
| BloodPressure.AdjustReading | app/src/main/java/com/example/timelycare/ui/screens/bloodpressure/BloodPressureScreen.kt:139-151 | each value moves by its step and is clamped to systolic 105-145, diastolic 65-95 and pulse 60-110; the timestamp stays |
| BloodPressure.AdjustAll | app/src/main/java/com/example/timelycare/ui/screens/bloodpressure/BloodPressureScreen.kt:153 | one adjusted reading per reading, in order |
| BloodPressure.GenerateDay | app/src/main/java/com/example/timelycare/ui/screens/bloodpressure/BloodPressureScreen.kt:136-177 | the target date; the same count of adjusted readings in order; the average is the truncated mean of each part, timestamped "Average"; lowest and highest are readings that minimise and maximise systolic plus diastolic; current is the last |
| BloodPressure.ExtremesAreFirst | app/src/main/java/com/example/timelycare/ui/screens/bloodpressure/BloodPressureScreen.kt:165-166 | lowest and highest are the first readings of least and greatest load |
| BloodPressure.GeneratedInRange | app/src/main/java/com/example/timelycare/ui/screens/bloodpressure/BloodPressureScreen.kt:143-156 | every synthetic reading, the current one and the average lie in the clamped ranges |
| HeartRate.ZoneOf | app/src/main/java/com/example/timelycare/ui/screens/heartrate/HeartRateScreen.kt:148-152 | normal up to 70, elevated up to 85, high above |
| HeartRate.ZoneMonotone | app/src/main/java/com/example/timelycare/ui/screens/heartrate/HeartRateScreen.kt:148-152 | a higher rate never has a lower zone |
| HeartRate.AdjustReading | app/src/main/java/com/example/timelycare/ui/screens/heartrate/HeartRateScreen.kt:146-157 | the rate moves by at most 6 and is clamped to 55-110, zoned again, with the timestamp kept |
| HeartRate.AdjustAll | app/src/main/java/com/example/timelycare/ui/screens/heartrate/HeartRateScreen.kt:145-158 | one adjusted reading per reading, in order |
| HeartRate.GenerateDay | app/src/main/java/com/example/timelycare/ui/screens/heartrate/HeartRateScreen.kt:142-172 | the target date; the same count of adjusted readings in order; the truncated mean; min and max are rates that occur and bound every reading; current is the last rate |
| HeartRate.GeneratedInRange | app/src/main/java/com/example/timelycare/ui/screens/heartrate/HeartRateScreen.kt:160-170 | 55 <= min <= average <= max <= 110, and the current rate is in 55-110 |
| Glucose.Categorize | app/src/main/java/com/example/timelycare/ui/screens/glucose/GlucoseScreen.kt:134-138 | low below 70, normal from 70 to 140, high above |
| Glucose.AdjustReading | app/src/main/java/com/example/timelycare/ui/screens/glucose/GlucoseScreen.kt:140-147 | the value moves by at most 12 and is clamped to 70-160, categorised again, with the timestamp kept |
| Glucose.AdjustAll | app/src/main/java/com/example/timelycare/ui/screens/glucose/GlucoseScreen.kt:140-148 | one adjusted reading per reading, in order |
| Glucose.GenerateDay | app/src/main/java/com/example/timelycare/ui/screens/glucose/GlucoseScreen.kt:131-168 | the target date; the same count of adjusted readings in order; an "Average" reading with the truncated mean and its category; min and max are readings that bound every value; current is the last |
| Glucose.ExtremesAreFirst | app/src/main/java/com/example/timelycare/ui/screens/glucose/GlucoseScreen.kt:151-152 | the min and max are the first readings of least and greatest value, as `minByOrNull`/`maxByOrNull` choose |
| Glucose.NoSyntheticLow | app/src/main/java/com/example/timelycare/ui/screens/glucose/GlucoseScreen.kt:142 | no synthetic reading, and not their average, is in the low category |
| WatchSettings.TextSizeFromName | wear/src/main/java/com/example/wear/data/settings/SettingsRepository.kt:38-40 | `valueOf`: the size with exactly that name, and none for any other name |
| WatchSettings.AccentColorFromName | wear/src/main/java/com/example/wear/data/settings/SettingsRepository.kt:41-43 | `valueOf`: the colour with exactly that name, and none for any other name |
| WatchSettings.WatchTypeFromName | wear/src/main/java/com/example/wear/data/settings/SettingsRepository.kt:44-46 | `valueOf`: the face type with exactly that name, and none for any other name |
| WatchSettings.FeatureFromName | wear/src/main/java/com/example/wear/data/settings/SettingsRepository.kt:49-54 | the feature with exactly that name, and none for an unknown name |
| WatchSettings.AlwaysEnabledIsExactlyTwo | wear/src/main/java/com/example/wear/data/settings/SettingsData.kt:25-33 | exactly Settings and All Meds are always enabled; every feature is one of the seven |
| WatchSettings.FeaturesOf | wear/src/main/java/com/example/wear/data/settings/SettingsRepository.kt:48-55 | a feature is decoded exactly when its name is stored; unknown names are dropped one by one |
| WatchSettings.DecodeComplications | wear/src/main/java/com/example/wear/data/settings/SettingsRepository.kt:48-55 | a missing key means every feature; otherwise the features whose names are stored |
| WatchSettings.NamesOf | wear/src/main/java/com/example/wear/data/settings/SettingsRepository.kt:87 | a feature's name is stored exactly when the feature is in the set, and only known names are stored |
| WatchSettings.NamesRoundTrip | wear/src/main/java/com/example/wear/data/settings/SettingsRepository.kt:87 | reading back a written set gives the same set |
| WatchSettings.Decode | wear/src/main/java/com/example/wear/data/settings/SettingsRepository.kt:32-56 | each missing key takes its default (MEDIUM, GREEN, DIGITAL, light, all features); each present key is decoded to the value with that stored name, and a present complication set to exactly the features whose names it holds |
| WatchSettings.EmptyIsDefault | wear/src/main/java/com/example/wear/data/settings/SettingsData.kt:35-41 | an empty store (also what a read error gives) decodes to the default settings |
| WatchSettings.SettingsRepository.constructor | wear/src/main/java/com/example/wear/data/settings/SettingsRepository.kt:13 | the repository holds the given store |
| WatchSettings.SettingsRepository.CurrentSettings | wear/src/main/java/com/example/wear/data/settings/SettingsRepository.kt:32-56 | an empty store reads as the defaults; a missing complication key means every feature; a present text size is read by its name |
| WatchSettings.ToggledSet | wear/src/main/java/com/example/wear/data/settings/SettingsRepository.kt:105-113 | both always-enabled features are in the result; the toggled feature is in it exactly when enabled; every other feature is as before |
| WatchSettings.ToggleIdempotent | wear/src/main/java/com/example/wear/data/settings/SettingsRepository.kt:105-115 | repeating the same toggle changes nothing more |
| WatchSettings.SettingsRepository.UpdateTextSize | wear/src/main/java/com/example/wear/data/settings/SettingsRepository.kt:59-63 | writes only the text-size key; the decoded settings change only in text size |
| WatchSettings.SettingsRepository.UpdateAccentColor | wear/src/main/java/com/example/wear/data/settings/SettingsRepository.kt:65-69 | writes only the accent key; the decoded settings change only in accent colour |
| WatchSettings.SettingsRepository.UpdateWatchType | wear/src/main/java/com/example/wear/data/settings/SettingsRepository.kt:71-75 | writes only the watch-type key; the decoded settings change only in face type |
| WatchSettings.SettingsRepository.UpdateDarkMode | wear/src/main/java/com/example/wear/data/settings/SettingsRepository.kt:77-81 | writes only the dark-mode key; the decoded settings change only in dark mode |
| WatchSettings.SettingsRepository.UpdateEnabledComplications | wear/src/main/java/com/example/wear/data/settings/SettingsRepository.kt:83-89 | stores the set with Settings and All Meds added; only that key changes |
| WatchSettings.SettingsRepository.ToggleComplication | wear/src/main/java/com/example/wear/data/settings/SettingsRepository.kt:91-117 | an always-enabled feature changes nothing; otherwise the stored set (all features when absent) is `ToggledSet` of it; only that key changes |
| ComplicationOrder.Rank | wear/src/main/java/com/example/wear/presentation/viewmodel/SettingsViewModel.kt:53-61 | ranks below 7, with 0 exactly for Settings and 1 exactly for All Meds |
| ComplicationOrder.OrderIsRanked | wear/src/main/java/com/example/wear/presentation/viewmodel/SettingsViewModel.kt:53-61 | the declaration order is strictly increasing in rank and holds every feature |
| ComplicationOrder.EnabledInOrder | wear/src/main/java/com/example/wear/presentation/viewmodel/SettingsViewModel.kt:50-63 | exactly the enabled features, each once (the length is the set's size), strictly increasing in rank |
| ComplicationOrder.SettingsThenAllMeds | wear/src/main/java/com/example/wear/presentation/viewmodel/SettingsViewModel.kt:53-55 | Settings is first whenever enabled, All Meds second when both are enabled, and All Meds first without Settings |
| ComplicationOrder.LeadsWithAlwaysEnabled | wear/src/main/java/com/example/wear/presentation/viewmodel/SettingsViewModel.kt:50-63 | a set holding both always-enabled features lists them first |
| ComplicationOrder.WrittenSetsLeadWithAlwaysEnabled | wear/src/main/java/com/example/wear/data/settings/SettingsRepository.kt:111-113 | every set the repository writes is listed with Settings and All Meds first |

## Left out

- Transport and persistence are left out: the Wearable `DataClient` push, `syncToWatch`, coroutines and `await`. The SharedPreferences text and the DataStore of the watch settings are modelled as plain values (`stored`, `Preferences`).
- Compose layout, theming, navigation, logging, the watch home screen's float trigonometry and simulated clock, the float `scaleFactor` of the text sizes, and the ViewModel's `update*` launchers are left out. They are presentation or asynchronous dispatch.
- The taken-dose tracker, `MedicationTakenRepository` and the dashboard cards are left out. Their repository is not part of this model.
- The phone's `Medication`, `Frequency` and `DayOfWeek` definitions are not part of this model. The record here holds only the fields the core reads. The medication type is kept as the form's label, and `MedicationType.fromString` is not modelled.
- The contact's other fields are not modelled, nor are the vitals records' fields that the generators copy unchanged.
- `java.time` is replaced:
  - dates are epoch days;
  - the weekday is computed from the epoch day;
  - "MM/dd/yyyy" parsing and formatting are the parameters `parseDate` and `formatDate`;
  - the "h:mm a" and "HH:mm" patterns are written out for English AM/PM markers.
- Clock.ParseClock: accepts one or two hour digits only. The "h" pattern would also accept extra leading zeros ("008:00 AM").
- `DayOfWeek.toString` is taken to print "Mon" to "Sun", which is the text both frequency parsers expect. If it printed the full names, the frequency text would not read back.
- FrequencyText.DaysText: lists the days Monday first. `joinToString` over the original's sets follows their insertion order instead, so the day names may appear in another order there. The set that is read back is the same.
- Whitespace (for `isBlank` and `trim`) and digits (for `isDigit`) are ASCII only. Unicode whitespace and non-ASCII digits are not modelled. String `length` is counted in UTF-16 units (`Text.Utf16Length`) where the core compares it with a bound.
- WatchCodec.Project: the frequency's `toString` on the wire is the opaque parameter `freqText`.
- WatchSettings.Decode: requires that the three single-name keys hold valid enum names. The original's `valueOf` throws on any other name, outside the `catch`.
- The country-code list is a parameter of the contact form, and the Philippines code is taken to be "+63". `CountryCodes` is not part of this model.
- The random sources of the vitals generators are replaced by the input `deltas`. Each step lies in the range `nextInt` draws from. The exact `kotlin.random.Random` sequence is not modelled.
- BloodPressure.GenerateDay: requires at least one reading, as `readings.first()` throws on an empty list.
- HeartRate.GenerateDay: requires at least one reading, as `minOf` throws on an empty list. The fallback of the current rate to the average is therefore unreachable and not modelled.
- Glucose.GenerateDay: requires at least one reading, matching the `first()`/`last()` fallbacks.
- Lists.Mean: `average().toInt()` is modelled as the exact mean truncated toward zero (`IsTruncatedMean`). The rounding of the floating-point division is not modelled.
- The `try`/`catch` guards of the schedule evaluator and of Save are not modelled as such: every modelled path yields a value, and none of them throws.

## Findings

| source | as written | input that shows it | evidently intended | confidence | as-written member | corrected member |
|---|---|---|---|---|---|---|
| app/src/main/java/com/example/timelycare/ui/screens/contacts/AddContactForm.kt:41 | the phone field's state is remembered with the selected country as a key, so choosing another country re-creates it from the edited contact's number (or "" for a new contact) and discards the number the handler at lines 142-145 has just sanitised | a new contact, "9171234567" typed, then the country changed from "+63" to "+1": the field becomes "" | the typed number stays, sanitised for the new country ("9171234567" unchanged) | medium: depends on Compose re-running `remember` when a key changes; not executed | ContactForm.SwitchingCountryDropsTypedNumber | ContactForm.AddContactForm.SelectCountry |
