# Verification of the audit chain, the schedulers and two workers

A Dafny model of the parts of the repository that promise the most about state:

- **The audit hash chain** (`api/app/audit.py`): the canonical JSON printer with its parser (`Json.dfy`), row
  hashes and chain verification (`AuditChain.dfy`), and appending transactions as interleaved steps under the
  advisory lock with read-committed visibility (`AuditLock.dfy`).
- **The write-once export** (`worker/audit_export.py`): the file format and its reader (`ExportCodec.dfy`), one
  run over a bucket whose objects never change (`AuditExport.dfy`), histories of runs with crashes
  (`ExportRuns.dfy`), and reading the bucket back (`ExportArchive.dfy`).
- **The ledger-driven schedulers**: trigger keys (`Ledger.dfy`), the alert scheduler (`BusinessDays.dfy`,
  `AlertModel.dfy`, `AlertScheduler.dfy`, `AlertRuns.dfy`), the renewals scheduler (`RenewalModel.dfy`,
  `RenewalScheduler.dfy`), the portfolio scheduler (`PortfolioScheduler.dfy`), what one tick of either does
  (`RenewalTick.dfy`), runs of both over one store (`RenewalRuns.dfy`), and that no effect happens twice over them
  (`RenewalEffects.dfy`).
- **The orphan report** (`OrphanReport.dfy`, with the order of ISO texts in `TimeOrder.dfy`).
- **The notification sender** (`NotificationOutbox.dfy`, `NotificationSender.dfy`): workers as interleaved steps
  that may crash anywhere, and the worker's own code as methods that are runs of those steps.
- **What each operation does, from the outside**: the results above are about the passes and folds the code is made
  of; these files say the same effects without them, in terms of rows, literal names, dates and people. JSON texts
  (`JsonFormat.dfy`), hashed and exported rows read back by column (`AuditRecord.dfy`), the calendar
  (`CalendarLaws.dfy`), one export run (`ExportLaws.dfy`), one tick of each scheduler (`AlertLaws.dfy`,
  `RenewalLaws.dfy`, `RenewalAccounts.dfy`, `PortfolioLaws.dfy`), the orphan report (`OrphanLaws.dfy`) and the
  sender (`SenderLaws.dfy`).

Code that updates a store is a class with methods, each proved against a function or relation on values; what the
repository promises is then proved about those. `dafny verify dfyconfig.toml` checks everything.

Dates are proleptic Gregorian ordinals, instants are microseconds, identifiers are natural numbers or texts. A hash
is any function whose values are 64 lower-case hexadecimal characters (section 6.2 of FIPS 180-4 gives one); a
statement that needs more says "or these two texts collide". Compression is any function that confuses no two texts.
JSON follows sections 4 to 7 of RFC 8259.

## Where the code and its comments part

The model follows the code. Each line names the exact condition and, where the two differ in what happens, a lemma that shows the
case at a concrete state.

- Any tamper in a single row is said to fail the whole chain (`api/app/audit.py:130-131`); the last row can be sealed
  anew: `AuditChain.TamperedRowVerifiesIff`, `AuditLock.ResealedRowVerifies`.
- The chain lock is said to keep `prev_hash` from racing (`api/app/audit.py:55-60`); a key below a stored one still
  breaks the chain: `AuditLock.CommittedRowsVerifyIff`, `AuditLock.EarlierAppendFails`.
- A mismatched export is called idempotent (`worker/audit_export.py:15-21`); only the base key is compared, so each
  re-run stores another sidecar: `ExportRuns.DriftAddsSidecarEachRun`. A day exported before it is over takes in the
  export's own row: `ExportRuns.SecondRunSkipsIff`. Both: `ExportRuns.SameDayExportDrifts`.
- An approval task is said to rise to level 1 when overdue (`worker/alert_scheduler.py:385-388`); the generic
  escalation runs in the same tick, so it rises two levels at once: `AlertRuns.RisesByTwoIff`,
  `AlertRuns.ApprovalRisesTwice`.
- Renewal nudges are said to be weekly (`worker/renewals_scheduler.py:323-324`); the key holds the day, so a stale
  renewal is nudged on every tick day: `RenewalRuns.NudgesAreDaily`, `RenewalRuns.NudgedOnConsecutiveDays`.
- A renewal at its last business day may be opened and churned by one tick: `RenewalTick.TickChurnsItsOwnIff`,
  `RenewalTick.OwnOpeningIsChurned`.
- `open_renewal` keeps one row per opportunity and term end; the release of a signed SOW does not ask
  (`api/app/services/signed_sow.py:1021-1029`): `RenewalRuns.ReleaseKeepsUniqueIff`,
  `RenewalRuns.ReleaseKeepsUniqueOpenIff`, `RenewalRuns.ReleaseDuplicates`.
- The retry back-off is described as 1, 2, 4, 8, 16 minutes (`api/app/services/notifications.py:16`); the first wait
  is 2: `NotificationOutbox.RetrySchedule`.
- A row is read again under its lock before it is sent; a crash after the delivery still sends it twice:
  `NotificationSender.DeliveredAtMostOnceIff`, `NotificationSender.CrashSendsAgain`.
- A notification whose source was deleted is removed only when a later row of the batch commits:
  `NotificationSender.DeletedRowGoneIff`, `NotificationSender.DeletedRowSurvives`.
- `oldest` and `newest` of the orphan report compare texts, which sort wrongly inside one second when fractions and
  whole seconds mix: `OrphanReport.OldestIsEarliestIff`, `OrphanReport.NewestIsLatestIff`,
  `OrphanReport.HalfSecondSwaps`. Amazon S3 lists whole seconds, for which both are right
  (`OrphanReport.WholeSecondsAreRight`); S3-compatible servers that list milliseconds are affected.

## Model

| member | source | states |
|---|---|---|
| Json.CanonicalRoundTrip | api/app/audit.py:46-47 | A parser run on the canonical text of any JSON value gives back every nested value, dictionaries in key order, and consumes the whole text |
| Json.CanonicalJsonDeterminesValue | api/app/audit.py:46-47 | Two values have the same canonical text if and only if they are equal as JSON values, whatever the insertion order of their keys |
| Json.CanonDecidesSame | api/app/audit.py:46-47 | Putting every dictionary in key order maps two values to one exactly when they are equal as JSON values, at every depth |
| Json.SortedAgree | api/app/audit.py:46-47 | Two dictionaries sort to the same entry list exactly when each entry of one is an entry of the other |
| Json.SortFieldsSorts | api/app/audit.py:46-47 | Sorting the keys of a dictionary gives ascending keys and a rearrangement of the entries |
| Json.CanonicalJsonIsOneLine | worker/audit_export.py:125-129 | The text is printable ASCII: no raw newline and no control character, so a file line holds exactly one row |
| JsonFormat.DictionaryText | api/app/audit.py:46-47 | Character by character: a brace, the keys in code-point order whatever the insertion order, no space after a colon or a comma |
| JsonFormat.Scalars | api/app/audit.py:46-47 | null, true, false, integers with a minus and without leading zeros, quoted strings, empty brackets |
| JsonFormat.ArrayText | api/app/audit.py:46-47 | A bracket, the texts of the items, a comma without a space |
| JsonFormat.ShortEscapes | api/app/audit.py:46-47 | Printable ASCII stands for itself but for the quote and the backslash, and seven characters have the short escapes of RFC 8259 |
| JsonFormat.LongEscapes | api/app/audit.py:46-47 | Other characters are lower-case hexadecimal UTF-16 units, beyond the basic plane two of them |
| TimeOrder.CodePointOrder | api/app/audit.py:46-47 | The first character that differs decides the order of two keys, and a text comes before its extensions |
| AuditChain.CanonicalTs | api/app/audit.py:30-39 | Naive-UTC text of 26 characters: the whole seconds, a point and six digits, also when there are no microseconds |
| AuditChain.CanonicalTsInjective | api/app/audit.py:30-39 | Two instants with the same canonical text are the same instant |
| AuditChain.VerifyChain | api/app/audit.py:127-153 | The replay loop returns true if and only if every row carries the hash of the row before it and its own recomputed hash, whatever text the stored hashes and other columns hold |
| AuditChain.ChainedSplits | api/app/audit.py:134-153 | Verifying two stretches end to end is verifying the first, then the second from the last hash of the first |
| AuditChain.FieldTextDetermines | api/app/audit.py:97-107 | Equal hashed texts of two rows mean equal values in each of the eight hashed fields, and conversely; the row id is not covered |
| AuditChain.BodySplits | api/app/audit.py:50-52 | The hashed body splits in one way only: 64 hexadecimal characters or nothing, then the JSON |
| AuditChain.LastHashDetermines | api/app/audit.py:136-153 | Two verifying chains that end in the same hash have the same length and agree in every hashed field of every row, or contain a hash collision |
| AuditChain.TamperedRowVerifiesIff | api/app/audit.py:127-153 | Replacing one row of a verifying chain in its place keeps it verifying if and only if the new row agrees in every hashed field and in both hashes, or it is the last row sealed anew, unless the hash confuses the two texts |
| AuditRecord.HashedTextIsRow | api/app/audit.py:97-107 | Parsed, the hashed text is a dictionary of exactly eight entries in key order: under each column name that column of the row, the time read back to its microsecond |
| AuditRecord.ChainHashesColumns | api/app/audit.py:127-153 | Verification in plain terms: each row carries the hash of the row before it, none for the first, and the hash of that followed by a JSON text of its eight columns |
| AuditRecord.SealHashesColumns | api/app/audit.py:97-121 | An appended row is the draft with the last hash and the hash of that followed by a JSON text of its eight columns |
| AuditRecord.TableOrder | api/app/audit.py:134-135 | A table in key order goes by time, and within one instant by the text of the row id |
| CalendarLaws.SecondsTextTells | api/app/audit.py:30-39 | The nineteen characters before the fraction name the second of the instant: year, month, day, hour, minute, second, with their separators |
| AuditLock.AppendKeepsChain | api/app/audit.py:88-124 | Appending a row whose key exceeds every stored key keeps the whole chain verifying |
| AuditLock.AppendVerifiesIffLast | api/app/audit.py:90-121 | Short of a hash collision, the table verifies after an append if and only if the new row sorts after every stored row |
| AuditLock.EarlierAppendFails | api/app/audit.py:90-121 | Under every hash: a second row one microsecond before the first one breaks the chain |
| AuditLock.ResealedRowVerifies | api/app/audit.py:127-153 | Under every hash: a table of one row verifies after the row was changed and sealed anew |
| AuditLock.InsertKeepsOrder | api/app/audit.py:134-135 | The table read back in (ts, id) order stays strictly ascending when a row with a new id is inserted |
| AuditLock.StepKeepsInv | api/app/audit.py:55-68 | One step of any transaction (begin, lock, read last, insert, commit, abort) keeps the committed rows and every open view a verifying chain, and never changes committed rows |
| AuditLock.RunKeepsInv | api/app/audit.py:55-124 | The same invariant over every interleaving of such steps |
| AuditLock.EveryInterleavingVerifies | api/app/audit.py:55-124 | From an empty table, whatever the interleaving, when each new key exceeds every row its transaction sees, the committed rows in (ts, id) order verify, and rows once committed stay where they are |
| AuditLock.CommittedRowsVerifyIff | api/app/audit.py:55-153 | After any run whatsoever, short of a hash collision, the committed rows verify if and only if no transaction that inserted a row out of order committed; later appends never repair a break, aborted inserts do no harm |
| ExportCodec.TsRoundTrip | worker/audit_export.py:96-101 | The ISO text of an exported instant reads back as that instant |
| ExportCodec.DecodeCanonRow | worker/audit_export.py:93-111 | Each of the eleven columns of a row can be read back from its parsed JSON line |
| ExportCodec.Serialize | worker/audit_export.py:114-130 | The line-by-line loop produces the compression of the canonical lines of the rows, in order |
| ExportCodec.FileRoundTrip | worker/audit_export.py:122-130 | Reading an uncompressed file gives back every row in order, with only the key order inside the two dictionaries forgotten |
| ExportCodec.JsonlInjective | worker/audit_export.py:114-130 | Files with the same text hold the same rows |
| ExportCodec.TidyChained | api/app/audit.py:134-153 | A chain whose dictionaries were put in key order by the export verifies exactly when the stored chain does |
| ExportCodec.SliceExactly | worker/audit_export.py:133-144 | The rows of one UTC day are exactly the table rows of that day, each as often, in key order |
| ExportCodec.SlicesReassemble | worker/audit_export.py:133-144 | The slices of consecutive days that cover a table in key order, end to end, are the table |
| ExportCodec.FilesReassembleChain | worker/audit_export.py:114-144 | The uncompressed files of the days that cover the table, decoded and put end to end, are the stored chain row by row and verify as one chain exactly when it does |
| AuditRecord.ExportedTextIsRow | worker/audit_export.py:93-111 | Parsed, an exported line is a dictionary of exactly eleven entries in key order: under each column name that column of the row |
| AuditRecord.FileIsLines | worker/audit_export.py:114-130 | An uncompressed file is one such line for each row, each ended by the only newline in it |
| AuditExport.SidecarKeyInjective | worker/audit_export.py:84-90 | A sidecar key names one day and one number |
| AuditExport.BaseKeyInjective | worker/audit_export.py:78-81 | A base key names one day |
| AuditExport.BaseIsNoSidecar | worker/audit_export.py:60-61 | No day's base key is a sidecar key of any day |
| AuditExport.FirstFreeIsFree | worker/audit_export.py:201-210 | The slot search ends at a number whose key is free while every smaller one is taken |
| AuditExport.Exporter.FreeSidecar | worker/audit_export.py:201-210 | The probing loop terminates, because the bucket is finite, at the first free number |
| AuditExport.Exporter.Choose | worker/audit_export.py:162-216 | Skip, sidecar or base write, decided by the stored MD5 of the base key alone |
| AuditExport.Exporter.Run | worker/audit_export.py:147-292 | One run leaves the bucket and the audit table exactly as the outcome function says on the success path and when cut short before or after the PUT, with or without the failure row |
| ExportLaws.RunRecords | worker/audit_export.py:160-272 | A run that is not cut short: of exactly the rows of the UTC day it makes the file; it stores that under the day's key, or the first free numbered one, unless the day's object has its MD5; the table gets one row, of entity audit_export and the ISO date, whose action is audit_export.written exactly when the day's object was missing, audit_export.skipped exactly when it was there with that MD5, else audit_export.reprocessed, with the count of rows of the day, key and SHA-256, and what was differed from |
| ExportLaws.CutShortRecords | worker/audit_export.py:273-293 | A run cut short leaves the bucket as before the PUT or as the whole run would, and at most one row, audit_export.failed with day and error |
| ExportLaws.ResultTells | worker/audit_export.py:64-71 | The returned result has the day, the number of rows of that day, the key, the SHA-256, and the action by the same conditions |
| ExportRuns.StoredExtends | worker/audit_export.py:167-249 | What one run stores adds at most one key, changes no stored object and leaves no gap in the sidecar numbers |
| ExportRuns.ActKeepsInv | worker/audit_export.py:160-292 | One run, or rows appended by others, keeps the bucket digested and gap-free and every committed export row truthful |
| ExportRuns.HistoryKeepsInv | worker/audit_export.py:147-292 | Over any sequence of runs with crashes: no stored object ever changes, the sidecars of a day are r1..rk, and every written, reprocessed or skipped row names an object with the recorded hash (a skip may be fooled by MD5) |
| ExportRuns.QuietHistoryAgrees | worker/audit_export.py:168-195 | While base object and source agree and nothing else adds rows to the day, they go on agreeing over any history |
| ExportRuns.FinishedDayIsSkipped | worker/audit_export.py:168-195 | A day exported by a run whose clock reads another day is skipped by every later run, and re-runs of it leave the bucket unchanged |
| ExportRuns.SecondRunSkipsIff | worker/audit_export.py:133-195 | A second run right after a day's first export is skipped if and only if the first run's clock read another day, unless MD5 confuses the two files |
| ExportRuns.DriftAddsSidecarEachRun | worker/audit_export.py:197-240 | Once the base object differs from the source, each re-run stores one more sidecar, even when the previous one already holds the bytes |
| ExportRuns.SameDayExportDrifts | worker/audit_export.py:167-240 | Both occur from an empty bucket: a day exported by a run on that day differs at the second run, and two later re-runs leave three objects |
| ExportArchive.ExportedDayIsHeld | worker/audit_export.py:244-266 | After any history, a day written by a run clocked on another day and quiet since is held byte for byte by its base object |
| ExportArchive.BucketHoldsChain | worker/audit_export.py:114-292 | After a history in which each of consecutive days was so exported, their stored objects, decompressed, decoded and put end to end, are the stretch of the stored chain in those days, and verify after the rows before it exactly when that stretch does |
| BusinessDays.BusinessDaysBetween | worker/alert_scheduler.py:82-97 | The day-by-day loop equals the closed form and counts exactly the weekdays after the earlier day up to the later one, 0 when they are out of order |
| BusinessDays.CountLaws | worker/alert_scheduler.py:82-97 | The count is additive over adjoining intervals and monotone |
| BusinessDays.WholeWeeks | worker/alert_scheduler.py:82-97 | Each whole week adds five |
| BusinessDays.WalkToPrevBusinessDay | worker/alert_scheduler.py:511-517 | The walk back terminates at the last weekday before the day |
| BusinessDays.PrevIsOneBack | worker/alert_scheduler.py:511-517 | Between the previous business day and a day there is one business day on a weekday and none at a weekend |
| CalendarLaws.KnownWeekdays | worker/alert_scheduler.py:94-96 | Known dates have their weekdays: 1 January 1970 was a Thursday |
| CalendarLaws.MonthStarts | api/app/services/renewals.py:71-89 | The days before each month of every year, with the leap day where the Gregorian rule puts it |
| CalendarLaws.EarlyDays | api/app/services/renewals.py:71-89 | 1 January of year 1 is day 1, 1 March 1900 day 693655, 1 January 1970 day 719163 |
| CalendarLaws.KnownTexts | worker/audit_export.py:78-81 | 15 August 2025 is written 2025-08-15, and 2025/08/15 as a folder |
| CalendarLaws.DateOfOrdinal | api/app/services/renewals.py:71-89 | Day numbers and dates from year 1 on correspond one to one |
| CalendarLaws.DayTextsSpell | worker/audit_export.py:78-81 | ISO dates and the folders of the export spell year, month and day in this order, with their separators |
| CalendarLaws.AlertDateInCalendarTerms | api/app/services/renewals.py:92-128 | The alert date lies exactly two calendar months before the term end, on the same day of the month or the last day of a shorter one |
| CalendarLaws.AlertDateIsFirst | api/app/services/renewals.py:92-128 | A day is on or after the alert date if and only if its month is later than two before the term end, or is that month and the day of the month is reached, clamped |
| Calendar.AlertLead | api/app/services/renewals.py:92-128 | Two calendar months back, clamped to the month end, is 59 to 62 days before the term end |
| Ledger.TriggerKeyDetermines | worker/alert_scheduler.py:103-114 | Colon-free pieces that fit 255 characters are determined by the joined key |
| Ledger.KeyTextsDistinct | api/app/scheduler/ledger.py:34-80 | The unique constraint on the stored text is uniqueness of (trigger, entity, window): no two triggers of the three schedulers share a text |
| Ledger.KeyTextsSpelled | worker/alert_scheduler.py:103-114 | The text stored for each of the twelve triggers: its name, the id of its row, its ISO date or level, joined by colons |
| AlertModel.SlaRowStep | worker/alert_scheduler.py:400-508 | Handling approval rows one by one in any order adds up to the declarative pass |
| AlertModel.EscalationRowStep | worker/alert_scheduler.py:306-368 | Handling overdue tasks one by one in any order adds up to the declarative pass |
| AlertModel.CheckInFire | worker/alert_scheduler.py:234-287 | One more opportunity whose check-in fires extends the declarative pass by one task due today, its key and its notification, and by nothing else |
| AlertScheduler.AlertStore.RecordTrigger | api/app/scheduler/ledger.py:50-80 | Records the key; true exactly when it was not there |
| AlertScheduler.AlertStore.ProcessOpportunityOverdue | worker/alert_scheduler.py:208-287 | The loop over opportunities performs the check-in pass and its report balances, fired plus skipped triggers being those found due |
| AlertScheduler.AlertStore.ProcessApprovalSla | worker/alert_scheduler.py:374-508 | The loop over approval tasks performs the nudge and escalation pass and its report balances, fired plus skipped triggers being those found due |
| AlertScheduler.AlertStore.ProcessTaskEscalations | worker/alert_scheduler.py:293-368 | The loop over overdue tasks performs the escalation pass and its report balances, fired plus skipped triggers being those found due |
| AlertScheduler.AlertStore.RunTick | worker/alert_scheduler.py:523-537 | One tick is the three passes in order, with fired triggers, created tasks and queued notifications equal to the growth of the ledger, task table and outbox, and skipped triggers those due and already recorded; a tick that raises leaves the store as it was |
| AlertLaws.TickRecordsExactly | worker/alert_scheduler.py:208-508 | A tick records exactly the triggers that are due, in terms of rows and weekdays: a check-in three weekdays after the client date without an update since that midnight, a nudge when only weekend days are left before the due date, an approval escalation on or after it at level 0, a task escalation past it below level 3 |
| AlertLaws.TickTasks | worker/alert_scheduler.py:132-508 | A tick raises each old task by one for each of its escalations recorded now and changes nothing else of it; each check-in recorded now has one new task, due today, at level 0, of the known owner |
| AlertLaws.TickTells | worker/alert_scheduler.py:272-508 | For each trigger recorded now the outbox gets one row for every channel, to the known owner of a nudged task, to the head of the owner for an escalation, to the head of Sales for a check-in; and no other row |
| AlertRuns.TickOnOneTask | worker/alert_scheduler.py:293-508 | What one tick does to a task and its keys, from the task and its own keys alone |
| AlertRuns.RisesByTwoIff | worker/alert_scheduler.py:448-464 | A tick never raises a task by more than two levels, and by two if and only if it awaits an approval, is at level 0, is past due and has neither key of the day |
| AlertRuns.ApprovalRisesTwice | worker/alert_scheduler.py:448-464 | It occurs: one tick on the day after the due date takes a fresh approval task from level 0 to 2 |
| AlertRuns.LevelCountsTickDays | worker/alert_scheduler.py:297-330 | After any run a task left open with its due date has level min(3, g) for g distinct committed tick days past due; an approval task min(3, 1 + g) once a tick day reached the due date, else 0; the level is the number of its escalation keys |
| AlertRuns.NudgesAreFew | worker/alert_scheduler.py:403-419 | Over any run at most due minus previous business day, so at most three, nudges, and no day is both a nudge and an escalation day |
| AlertRuns.TickLeavesNothingDue | worker/alert_scheduler.py:523-537 | After a tick every trigger due that day is in the ledger |
| AlertRuns.SecondTickChangesNothing | worker/alert_scheduler.py:523-537 | A second tick on the same day changes no task, level, ledger row or notification, including for tasks the first one created |
| AlertRuns.OneCheckInPerDate | worker/alert_scheduler.py:234-268 | Over any run at most one check-in task exists per opportunity and client date |
| AlertRuns.TriggersNotifyOnce | api/app/scheduler/ledger.py:1-20 | Over any run whose outside steps add no notice of the scheduler, each trigger has notified one user, once per channel, and is in the ledger |
| RenewalScheduler.RenewalStore.OpenOnce | api/app/services/renewals.py:256-370 | A new open renewal with its owner task and notification if and only if no row for the opportunity and term end exists |
| RenewalScheduler.RenewalStore.OpenAtLeadFor | worker/renewals_scheduler.py:227-275 | Opens at the two-month alert date, once per key, unless an open renewal is there |
| RenewalScheduler.RenewalStore.ShortAssessmentFor | worker/renewals_scheduler.py:597-646 | Opens for a short assessment, once per version and term end, unless an open renewal is there |
| RenewalScheduler.RenewalStore.NoticeTaskFor | worker/renewals_scheduler.py:384-443 | A legal task when the notice date comes more than 60 days before the term end, from 60 days ahead of it, once |
| RenewalScheduler.RenewalStore.NudgeOne | worker/renewals_scheduler.py:310-359 | A nudge for a row without an update for seven days, once per renewal and day |
| RenewalScheduler.RenewalStore.EscalateOne | worker/renewals_scheduler.py:463-504 | An escalation exactly 30 or 14 days before the term end, once per renewal and level |
| RenewalScheduler.RenewalStore.ChurnOne | worker/renewals_scheduler.py:524-586 | Churns an open overdue row and tells the owner and the head of sales, once |
| RenewalScheduler.RenewalStore.WalkVersions | worker/renewals_scheduler.py:199-212 | A pass over confirmed versions is the fold of its row function in upload order |
| RenewalScheduler.RenewalStore.WalkRenewals | worker/renewals_scheduler.py:301-310 | A pass over open renewals is the fold of its row function over the selected rows, each once, in any order |
| RenewalScheduler.RenewalStore.RunTick | worker/renewals_scheduler.py:652-666 | One tick is the six passes in order, its report equal to the growth of the tables, the change in open renewals, each trigger recorded now but for reviews that found an open renewal, and the due triggers found recorded; a tick that raises leaves the store as it was |
| RenewalLaws.TickRecordsExactly | worker/renewals_scheduler.py:218-646 | A tick records exactly the triggers that are due, in terms of versions, rows and the calendar: two-month reviews, notice tasks, stale rows after seven days, levels 1 and 2 at 30 and 14 days, churn past the term end; a short assessment only without an open renewal |
| RenewalLaws.OpensTwoMonthsBefore | worker/renewals_scheduler.py:230-275 | From which day on: the review of a term end is recorded exactly when a confirmed version has it and the business day is in the last two calendar months before it, clamped; with the record comes a row |
| RenewalLaws.TickRows | worker/renewals_scheduler.py:218-646 | Old rows stay but for open ones past their term end, which churn; new rows come only from versions up for review or short assessments whose trigger is recorded now, alone for their term end |
| RenewalLaws.ShortIsCovered | worker/renewals_scheduler.py:592-646 | A short assessment has an open renewal after the tick or its trigger was recorded, and with the record comes a row |
| RenewalLaws.VersionSkipIs | worker/renewals_scheduler.py:243-252 | A version is counted as skipped exactly when it calls for a key that is there already |
| RenewalLaws.RenewalSkipIs | worker/renewals_scheduler.py:325-339 | A selected renewal is counted as skipped exactly when the key it has is there already |
| RenewalAccounts.TickAccounted | worker/renewals_scheduler.py:218-646 | The outbox and the tasks grow by exactly what came about: for each opening, nudge, notice date, escalation and churn one row for every channel to the owner, the legal head or the head of Sales; one task for each new renewal and notice date |
| RenewalTick.TickLeavesNoneOverdue | worker/renewals_scheduler.py:510-548 | After a committed tick no renewal is open with its term end before the UTC day; old rows change only by churning; no second row for a term end is added; a churn key still implies that its renewal is not open |
| RenewalTick.ChurnedOnOpening | worker/renewals_scheduler.py:224-238 | A renewal opened by a tick ends it churned exactly when the business day is at or before its term end and the UTC day after it, so never when the dates agree, and never when the short-assessment pass opened it |
| RenewalTick.TickChurnsItsOwnIff | worker/renewals_scheduler.py:224-275 | A tick churns a renewal it opened itself if and only if, as it starts, some confirmed version ends on the business day, UTC is a day ahead, and neither key nor row exists |
| RenewalTick.OwnOpeningIsChurned | worker/renewals_scheduler.py:224-275 | It occurs: a version that ends on business day 100, ticked at UTC day 101, is opened and churned |
| RenewalTick.SomeTick | worker/renewals_scheduler.py:652-666 | A tick can run at every store |
| RenewalTick.SecondTickChangesNothing | worker/renewals_scheduler.py:652-666 | A second tick at the same instant changes nothing, although the first may have opened and churned renewals the passes read |
| RenewalTick.ChurnPassChurns | worker/renewals_scheduler.py:510-548 | The churn pass churns exactly the open overdue rows and records exactly their keys |
| RenewalTick.FoldSettles | worker/renewals_scheduler.py:230-252 | After a pass over versions each of its triggers would do nothing |
| PortfolioScheduler.RenewalFor | worker/portfolio_scheduler.py:88-160 | An engagement within its alert window opens its renewal, or gets one ledgered review task when no opportunity is behind it |
| PortfolioScheduler.ProcessRenewals | worker/portfolio_scheduler.py:78-160 | The loop is the fold over the engagements in query order |
| PortfolioScheduler.GroupByOwner | worker/portfolio_scheduler.py:173-178 | The dictionary holds each owner of a running engagement once, in order of first appearance, with exactly their engagements in order; running engagements without an owner are counted |
| PortfolioScheduler.ProcessNightlyDigest | worker/portfolio_scheduler.py:163-223 | At most one digest per owner with findings and day |
| PortfolioScheduler.RunTick | worker/portfolio_scheduler.py:229-236 | The two halves in order over the stored engagements as the two queries list them; the counters equal the growth of the renewals, tasks and ledger, the fired list names the engagement of each new row and each new key, and every due engagement and every owner is counted once; a tick that raises leaves the store as it was |
| PortfolioLaws.TickRecordsExactly | worker/portfolio_scheduler.py:78-223 | A portfolio tick records exactly the reviews of watched engagements in their last two calendar months without a deal, and the digests of owners with something running that is below the floor or rolls off |
| PortfolioLaws.TickRows | worker/portfolio_scheduler.py:88-112 | From which day on: every watched engagement with a deal has a row in its last two calendar months; new rows are only theirs, alone for their term end, and old rows stay |
| PortfolioLaws.TickAccounted | worker/portfolio_scheduler.py:78-223 | The outbox and the tasks grow by exactly the openings, reviews and digests, each to the owner it is for |
| RenewalTick.PortfolioTickGrows | worker/portfolio_scheduler.py:88-223 | A portfolio tick opens rows for running engagements only, never a second one for a term end, and churns none; afterwards every stored engagement that is due has its item and every owner with findings was told |
| RenewalTick.SecondPortfolioTickChangesNothing | worker/portfolio_scheduler.py:229-236 | A second portfolio tick on the same day changes nothing, in whatever order either query lists the engagements |
| RenewalRuns.NoneOverdueThroughoutRun | worker/renewals_scheduler.py:510-548 | Over any run of committed and rolled-back ticks of both workers and outside changes, churn keys stay truthful and every committed renewals tick leaves no open renewal past its term end |
| RenewalRuns.OneOpenRenewalPerTermEnd | api/app/services/renewals.py:195-290 | If outside changes add no second open row for a term end, there is at most one open renewal per opportunity and term end throughout, whatever closed rows stand beside it |
| RenewalRuns.OneRenewalPerTermEnd | api/app/services/renewals.py:256-290 | If outside changes add no second row in any status, there is at most one row per opportunity and term end throughout |
| RenewalRuns.ReleaseKeepsUniqueIff | api/app/services/signed_sow.py:1018-1031 | The release of a signed SOW, which inserts without looking, keeps rows unique if and only if no row for the term end exists |
| RenewalRuns.ReleaseKeepsUniqueOpenIff | api/app/services/signed_sow.py:1018-1031 | It keeps open renewals unique if and only if no open renewal for the term end exists |
| RenewalRuns.ReleaseDuplicates | api/app/services/signed_sow.py:1018-1031 | It occurs: a release for a term end whose renewal is open leaves two open rows |
| RenewalRuns.ClosedForGood | api/app/services/renewals.py:376-486 | A renewal closed, extended or churned once is never open again, and its identifier is not used for another row |
| RenewalRuns.TickNudges | worker/renewals_scheduler.py:310-336 | A tick adds a nudge key for an existing renewal exactly when it is open and seven days stale |
| RenewalRuns.NudgesAreDaily | worker/renewals_scheduler.py:323-336 | Over any run in which a renewal stays open without an update, its nudge keys grow by exactly the days of the committed ticks that find it stale: one a day, not one a week |
| RenewalRuns.NudgedOnConsecutiveDays | worker/renewals_scheduler.py:323-336 | It occurs: ticks on days 10 and 11 nudge the same renewal both times |
| RenewalEffects.EffectsHappenOnce | api/app/scheduler/ledger.py:1-20 | Over any run of both workers whose outside steps add none of their notices or tasks: one user notified once per channel about each trigger, opening and churn; one task per renewal, per notice date of an opportunity and per end of an engagement |
| OrphanReport.ListLiveObjects | worker/agreement_orphans.py:46-54 | The paginated walk yields the latest versions that are objects, in listing order |
| OrphanReport.LiveExactly | worker/agreement_orphans.py:46-54 | With one latest version per key, exactly the live objects, each key once, and none under a delete marker |
| OrphanLaws.ListingInOrder | worker/agreement_orphans.py:46-54 | Pages are read one after the other, and of each version a latest object is kept, in place |
| OrphanReport.UpToSlash | worker/agreement_orphans.py:81-83 | The part of a key before its first slash |
| OrphanReport.SortRowsSorts | worker/agreement_orphans.py:111-112 | The sort is by key, a rearrangement, and keeps the order of rows with one key |
| OrphanReport.BuildReport | worker/agreement_orphans.py:86-129 | The loop reports the size of each class, the queued rows sorted, and for each top-level name the count, bytes, oldest, newest and sorted sample of exactly its orphans |
| OrphanLaws.ReportTotals | worker/agreement_orphans.py:86-129 | In a report, referenced counts the objects whose key a database row points at, queued lists in key order the rows of those only a deletion job points at, recent counts the others younger than 24 hours, and orphans counts and sums the rest |
| OrphanLaws.ReportGroups | worker/agreement_orphans.py:81-127 | The groups are the folders with orphans; each counts and sums exactly its orphans and has their first and last time text |
| OrphanLaws.ReportSample | worker/agreement_orphans.py:107-112 | The sample of a folder is the rows of its first orphans in the listing, at most 200, in key order |
| CalendarLaws.IsoZTells | worker/agreement_orphans.py:38-43 | The time text names the second of the instant, then the six digits of a fraction if there is one, then Z |
| OrphanReport.ClassesPartition | worker/agreement_orphans.py:94-106 | Every live object is in exactly one of referenced, queued, recent and orphan |
| OrphanReport.ReportAddsUp | worker/agreement_orphans.py:113-129 | The four class sizes of a report add up to the live objects |
| OrphanReport.NamesAddUp | worker/agreement_orphans.py:113-127 | Counts and bytes of the groups add up to those of all orphans |
| OrphanReport.ReportReordered | worker/agreement_orphans.py:86-129 | Totals, groups, counts, bytes, oldest and newest do not depend on the order of the listing; with distinct keys neither do the queued rows nor a group that fits its sample |
| OrphanReport.SampleOfGroup | worker/agreement_orphans.py:109-112 | A group lists its first min(200, count) orphans of the listing, sorted by key |
| OrphanReport.OldestIsEarliestIff | worker/agreement_orphans.py:42-43 | The oldest text is that of the earliest object if and only if that time has a fraction or nothing else is stored at a fraction of the same second |
| OrphanReport.NewestIsLatestIff | worker/agreement_orphans.py:42-43 | The newest text is that of the latest object if and only if no earlier object of the same second is at the whole second |
| OrphanReport.WholeSecondsAreRight | worker/agreement_orphans.py:42-43 | When all times are whole seconds, as S3 lists them, oldest and newest are right |
| OrphanReport.HalfSecondSwaps | worker/agreement_orphans.py:42-43 | With two objects half a second apart oldest and newest change places |
| TimeOrder.IsoOrder | worker/agreement_orphans.py:42-43 | ISO texts sort as the instants do except within one second when the earlier instant is a whole second |
| NotificationOutbox.RetrySchedule | api/app/services/notifications.py:320-372 | The k-th failure waits 2^k minutes, the fifth is final |
| NotificationOutbox.PendingNotifications | api/app/services/notifications.py:286-317 | From the table in the order of next attempts, the first rows up to the limit that are pending, have attempts left and are ready |
| NotificationOutbox.LimitBeforeFilter | api/app/services/notifications.py:296-317 | Limiting before filtering starves no ready row, because in the order of next attempts ready rows come first |
| NotificationOutbox.SelectionMembers | api/app/services/notifications.py:297-300 | The query selects exactly the pending rows with attempts left |
| SenderLaws.BatchIsFirstEligible | api/app/services/notifications.py:286-317 | A batch holds only pending rows tried fewer than five times and due; it is in order of next attempt, all of them when it is not full, and a full one leaves out only rows that come after it |
| SenderLaws.OutcomeTells | worker/notification_sender.py:119-191 | What becomes of a row, field by field: the reason of a suppression, the time of a sent row, the wait of 2, 4, 8 or 16 minutes after a refused one, and failure at the fifth |
| NotificationSender.StepKeepsInv | worker/notification_sender.py:143-191 | Every step of any worker, crashes included, keeps: a handled row is locked by its worker and pending, attempts stay below five while pending, deliveries balance |
| NotificationSender.EmailsAccountedFor | worker/notification_sender.py:119-191 | However steps interleave and wherever workers crash, each row leaves pending at most once, its email is confirmed at most once, and the deliveries are the confirmed one, the lost ones and the one in flight |
| SenderLaws.SentIffConfirmed | worker/notification_sender.py:119-191 | Over every run: an email row in the table is marked sent if and only if a delivery of it was confirmed, and then it reached a mailbox; other rows marked sent are in-app, and nothing but email is delivered; a failed row is an email at its fifth attempt |
| NotificationSender.DeliveredAtMostOnceIff | worker/notification_sender.py:119-156 | Over every run, a row is delivered at most once if and only if no message of it is delivered after one of its messages was lost, by a crash between delivery and commit or an error for a delivered message; in particular when none of its messages is lost |
| NotificationSender.CrashSendsAgain | worker/notification_sender.py:128-140 | A concrete run: after a crash between delivery and commit the email goes out twice, confirmed once |
| NotificationSender.Session.SuppressRow | worker/notification_sender.py:67-91 | Suppresses the row and commits the session |
| NotificationSender.Session.MarkInappSent | worker/notification_sender.py:94-113 | Marks the row sent, one attempt more, and commits |
| NotificationSender.Session.MarkRowSent | api/app/services/notifications.py:325-351 | Marks the delivered row sent, one attempt more, and commits |
| NotificationSender.Session.MarkRowFailed | api/app/services/notifications.py:354-394 | One attempt more, retried later or failed at the fifth, and commits |
| NotificationSender.Session.HandleEmail | worker/notification_sender.py:119-140 | The email branch takes the steps suppress, or deliver and mark sent, or refuse and mark failed |
| NotificationSender.Session.HandleRow | worker/notification_sender.py:143-191 | One row is a run of the interleaved machine: lock, read again, skip unless pending, else the branch its channel and the answers call for |
| NotificationSender.Session.ProcessBatch | worker/notification_sender.py:194-215 | A whole undisturbed session is a run of the machine whose committed rows are the fold of the row outcomes, uncommitted deletions undone |
| NotificationSender.RowHandled | worker/notification_sender.py:143-191 | The steps of one row have its outcome on the table |
| NotificationSender.DeletedRowGoneIff | worker/notification_sender.py:154-157 | After an undisturbed session a row whose source was deleted is gone if and only if a later row of the batch committed; every other row has its outcome |
| NotificationSender.DeletedRowSurvives | worker/notification_sender.py:154-157 | It occurs: a session whose only row is deleted closes and leaves the row pending |

## Left out

- SHA-256, MD5, gzip and base64 internals: functions with the stated properties.
- Floats and `default=str` in the JSON printer: null, booleans, integers, strings, arrays and objects only.
- Lone UTF-16 surrogates: a Dafny character is a Unicode scalar value, which is what the JSONB columns and UTF-8 can hold.
- The SQLite branch of the chain lock; only the transaction-long Postgres lock is modelled.
- AuditExport.Exporter.Run: runs are sequential; two concurrent runs of the export, and other appends between its read and its append, are not interleaved.
- S3, SES, SQL and process plumbing: a bucket is a map, a mail is a step, a query is a set of rows in any order.
- RenewalScheduler.RenewalStore.RunTick: concurrent ticks are not interleaved; each tick is one atomic transaction, as for the alert and portfolio ticks.
- The audit rows the schedulers write beside their effects; only the instant of the latest renewal or next-action update is kept.
- Time zones: the business day is any day equal to the UTC day or the day before.
- Parsing of the dates in a SOW extract: a version carries its dates, or none.
- Head-of-function and legal-owner lookup, and the creation of the legal user: parameters.
- Notification subjects and bodies, per-user channel settings, and the forecast numbers in a digest; which engagements are below the floor and which sets of them have roll-offs is given.
- Random UUIDs: an identifier supply that never repeats.
- `Calendar.AlertDate` for term ends before 1 March of year 1, where Python has no date two months back.
- The order of group names in the orphan report: a dictionary's order is not part of its value, and it is printed with sorted keys.
- Transport of mail: whether a refused message was delivered all the same is part of the step, because the sender cannot tell.
- The trimming of an error text to 1000 characters and the stock text for an empty one (`api/app/services/notifications.py:366`); the error of a failed row is the text given.
- Manual resets of a failed notification's attempts, for which the repository has no code.
- `worker/hubspot_intake.py`, `worker/agreement_batches.py`, `worker/deletion_cleanup.py`, `worker/forecast_plans.py`, `worker/sourcing_automation.py`, the API routers and the web client: thin loops or presentation.
