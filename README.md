# kafka-archiver: rollover and archive shipping, modelled in Dafny

The archiver consumes log records from a Kafka topic, appends each record to a
local file named after the calendar day of the timestamp it carries
(`<workDirectory>/data-yyyy-MM-dd.log`), and, when the timestamps in the
stream cross into a new day, zips the previous day's file, puts the archive
into an S3 bucket and deletes the local copies. The decision is taken from the
timestamps in the data only, never from the wall clock.

This project models the core of `App.java`: the per-record state machine of
the consumer loop (field extraction, rollover guard, shipping of day − 1, the
watermark update, the one-day recovery look-back for day − 2, the first-record
initialisation, the append and the message counter), `packAndSendCurrentFile`
and `formatFilename`.

Files:

- `wrappers.dfy` — `Option` (Java `null`) and `Result` (a thrown exception).
- `calendar.dfy` — days and timestamps in one fixed time zone: `DayOf`,
  `HourOf`, `Before` (`Date.before`) and `PrevDay` (`cal.add(DAY_OF_YEAR, -1)`).
- `naming.dfy` — the `yyyy-MM-dd` format, `formatFilename`, the `.zip` path,
  the zip entry name (`substringAfterLast`) and the upload key
  (`awsPath + zipFile.getName()`).
- `extraction.dfy` — `replaceAll("  ", " ")`, `split(" ")` with Java's
  semantics (no match gives the string itself; trailing empty pieces are
  dropped), token 6 and `substring(1, length - 1)`.
- `archive_spec.dfy` — the state machine as functions over a snapshot
  (`Machine`): `Step` for one record, `PackAndSend` for one day, `Run` for a
  batch, and `RolledDays`, the days on which a batch rolled over.
- `archive_properties.dfy` — the properties, proved of those functions.
- `archiver.dfy` — class `Archiver`: the static fields `lastDate`,
  `currentDateString` and `numberOfMessages`, the local disk (a map from path
  to contents), the object store (a log of `putObject` calls) and a journal of
  effects, updated in place by `PackAndSendCurrentFile`, `ProcessRecord` and
  `Consume`. Each method is proved to produce the state the matching function
  of `ArchiveSpec` describes.

Timestamps are civil date-times (`Moment(date, millis)`); a day is a
proleptic Gregorian date. `SimpleDateFormat.parse` is a parameter of the model
(`parse: string -> Option<Timestamp>`), so every property holds for any parser.

Three behaviours of `App.java` differ from the obvious reading, and the model
keeps them:

- A failure to open the log while packing is only logged. The zip stream was
  opened first, so an archive with no entries exists. It is uploaded, and both
  deletes still run, so the log is not kept.
- A record with fewer than seven tokens, or whose token 6 is shorter than two
  characters, throws outside the inner `try`. That ends the consumer loop; the
  record is not skipped. Only a date field that fails to parse is skipped.
- The record is appended as it is, without a line break.

## Model

| member | source | states |
|---|---|---|
| Calendar.HourOf | src/main/java/fr/artestudio/kafkaarchiver/App.java:149 | `HOUR_OF_DAY` is below 24 and is the hour whose interval contains the timestamp's time of day |
| Calendar.PrevDayIsPredecessor | src/main/java/fr/artestudio/kafkaarchiver/App.java:153 | `add(DAY_OF_YEAR, -1)` gives the immediate predecessor: an earlier day, with no day strictly between it and the original |
| Calendar.DayBeforeIsStrictTotalOrder | src/main/java/fr/artestudio/kafkaarchiver/App.java:146-157 | days are strictly and totally ordered, with the mixed transitivity facts the watermark proofs use |
| Calendar.BeforeIsStrictTotalOrder | src/main/java/fr/artestudio/kafkaarchiver/App.java:150 | `Date.before` is a strict total order, and an earlier timestamp never falls on a later day |
| Naming.PadDigits | src/main/java/fr/artestudio/kafkaarchiver/App.java:42 | a zero-padded number field has exactly the pattern's width and only decimal digits |
| Naming.DigitsRoundTrip | src/main/java/fr/artestudio/kafkaarchiver/App.java:42 | zero-padded decimal digits read back to the number whenever it fits the width |
| Naming.FormatDateRoundTrip | src/main/java/fr/artestudio/kafkaarchiver/App.java:42 | a `yyyy-MM-dd` string reads back to the day it was printed from |
| Naming.FormatDateInjective | src/main/java/fr/artestudio/kafkaarchiver/App.java:147 | two formatted days are equal exactly when the days are equal |
| Naming.LastIndexOf | src/main/java/fr/artestudio/kafkaarchiver/App.java:198 | the index found holds the separator and no later character does; -1 when there is none |
| Naming.BaseNameOfJoin | src/main/java/fr/artestudio/kafkaarchiver/App.java:194-209 | for a directory, a separator and a separator-free name, `substringAfterLast` and `File.getName` both return the name |
| Naming.NamesOfDay | src/main/java/fr/artestudio/kafkaarchiver/App.java:192-209 | the archive path is the log path plus `.zip`; the entry name is `data-yyyy-MM-dd.log`; the upload key is `awsPath + "data-yyyy-MM-dd.log.zip"` |
| Naming.NamesInjective | src/main/java/fr/artestudio/kafkaarchiver/App.java:214-216 | different days never share a log path, an archive path or an upload key |
| Naming.ZipIsNotLog | src/main/java/fr/artestudio/kafkaarchiver/App.java:194-195 | no archive path is ever a log path |
| Extraction.CollapseDoubleSpaces | src/main/java/fr/artestudio/kafkaarchiver/App.java:137 | the replacement never lengthens the value (how runs shrink: `CollapseSpaceRun`) |
| Extraction.CollapseKeepsWords | src/main/java/fr/artestudio/kafkaarchiver/App.java:137 | the double-space replacement removes spaces only: the other characters survive in order |
| Extraction.CollapseKeepsSingleSpaced | src/main/java/fr/artestudio/kafkaarchiver/App.java:137 | a value without double spaces is left unchanged |
| Extraction.CollapseIsOnePass | src/main/java/fr/artestudio/kafkaarchiver/App.java:137 | the replacement makes a single pass: four spaces become two, which is still a double space |
| Extraction.CollapseWord | src/main/java/fr/artestudio/kafkaarchiver/App.java:137 | a space-free word passes through the replacement unchanged |
| Extraction.CollapseSpaceRun | src/main/java/fr/artestudio/kafkaarchiver/App.java:137 | a run of k spaces up to the next non-space character comes out as ceil(k / 2) spaces |
| Extraction.CollapseGappedRecord | src/main/java/fr/artestudio/kafkaarchiver/App.java:137 | words separated by gaps of one or two spaces come out single-spaced |
| Extraction.SplitOnSpace | src/main/java/fr/artestudio/kafkaarchiver/App.java:138 | splitting on every space gives at least one piece and no piece contains a space |
| Extraction.DropTrailingEmpty | src/main/java/fr/artestudio/kafkaarchiver/App.java:138 | the result is a prefix of the pieces that does not end with an empty piece, and every piece dropped is empty |
| Extraction.JavaSplit | src/main/java/fr/artestudio/kafkaarchiver/App.java:138 | a value without a space is its own single token; otherwise the tokens are space-free, the last one is non-empty, their single-spaced join is the value up to its trailing spaces, and a value of spaces only has no tokens |
| Extraction.JavaSplitOfJoin | src/main/java/fr/artestudio/kafkaarchiver/App.java:138 | non-empty, space-free words joined by single spaces split back into exactly those words |
| Extraction.JoinOfSplit | src/main/java/fr/artestudio/kafkaarchiver/App.java:138 | splitting on spaces loses nothing: joining the pieces with single spaces gives the string back |
| Extraction.SplitOfJoin | src/main/java/fr/artestudio/kafkaarchiver/App.java:138 | space-free pieces joined by single spaces split back into the same pieces |
| Extraction.ExtractDateField | src/main/java/fr/artestudio/kafkaarchiver/App.java:137-139 | extraction succeeds exactly when there are at least seven tokens and token 6 has at least two characters; then token 6 is its first character, the field, and its last character, and the field has no space |
| Extraction.ExtractFromRecord | src/main/java/fr/artestudio/kafkaarchiver/App.java:136-139 | for words separated by one or two spaces whose word 6 is a bracketed text, extraction returns exactly that text |
| Extraction.ShortRecordIsFatal | src/main/java/fr/artestudio/kafkaarchiver/App.java:139 | a record of fewer than seven words throws at `values[6]` |
| Extraction.ThreeSpaceGapShiftsTokens | src/main/java/fr/artestudio/kafkaarchiver/App.java:137-138 | a gap of three spaces leaves an empty token (`a   b` gives `a`, empty, `b`), shifting later tokens |
| ArchiveSpec.Increment | src/main/java/fr/artestudio/kafkaarchiver/App.java:179 | `numberOfMessages++` on a `long` stays a `long` and is one more modulo 2^64 (exactly one more below the maximum) |
| ArchiveProperties.RolloverIff | src/main/java/fr/artestudio/kafkaarchiver/App.java:146-150 | the string-comparing guard holds exactly when a watermark is set, the record is on another day, past hour 2 and strictly later; the record's day then follows the watermark's day |
| ArchiveProperties.UnparsedRecordIsSkipped | src/main/java/fr/artestudio/kafkaarchiver/App.java:143-174 | a date field that does not parse leaves the whole state unchanged: no watermark, progress text, file or counter change |
| ArchiveProperties.MissingFieldIsFatal | src/main/java/fr/artestudio/kafkaarchiver/App.java:135-183 | a record ends the loop exactly when it has fewer than seven tokens or a token 6 shorter than two characters |
| ArchiveProperties.FirstRecord | src/main/java/fr/artestudio/kafkaarchiver/App.java:146-172 | the first parsed record sets the watermark to its own timestamp and uploads nothing |
| ArchiveProperties.WatermarkStep | src/main/java/fr/artestudio/kafkaarchiver/App.java:146-172 | the watermark changes exactly when it is unset or on a rollover, and then to the record's timestamp, moving forward; same-day, hour-2-or-earlier and not-later records leave it unchanged |
| ArchiveProperties.WatermarkDayNeverDecreases | src/main/java/fr/artestudio/kafkaarchiver/App.java:157 | once set, the watermark stays set and its day never goes back |
| ArchiveProperties.RolledDaysAfter | src/main/java/fr/artestudio/kafkaarchiver/App.java:146-157 | every rollover in a batch is on a day strictly after any day the watermark had already reached |
| ArchiveProperties.RolledDaysIncrease | src/main/java/fr/artestudio/kafkaarchiver/App.java:146-157 | over any batch the rollover days strictly increase and follow the starting watermark's day, so after a rollover on day D no day-D record rolls again |
| ArchiveProperties.ThreeDistinctDays | src/main/java/fr/artestudio/kafkaarchiver/App.java:153-166 | the record's day, the shipped day and the recovery day are three consecutive, distinct days |
| ArchiveProperties.PackAndSendFrame | src/main/java/fr/artestudio/kafkaarchiver/App.java:210-211 | packing a day changes no file other than its log and its archive |
| ArchiveProperties.PackAndSendEffects | src/main/java/fr/artestudio/kafkaarchiver/App.java:191-212 | afterwards neither the log nor the archive exists; one archive was uploaded under `awsPath + data-yyyy-MM-dd.log.zip`, holding one entry named after the log with its contents, or no entry when the log was missing; the effects were create, upload, delete archive, delete log, in that order |
| ArchiveProperties.StepFrame | src/main/java/fr/artestudio/kafkaarchiver/App.java:135-179 | a parsed record changes no file other than its own day's log and the logs and archives of the two days before it |
| ArchiveProperties.StepShipments | src/main/java/fr/artestudio/kafkaarchiver/App.java:153-166 | without a rollover nothing is uploaded; on a rollover the record's day − 1 is uploaded whatever the watermark's day was, then day − 2 exactly when its log is on disk |
| ArchiveProperties.LookBackIsBounded | src/main/java/fr/artestudio/kafkaarchiver/App.java:160-166 | a day other than the record's and the two before it keeps its log and archive and gets no upload, even when its log is still on disk |
| ArchiveProperties.StepAppends | src/main/java/fr/artestudio/kafkaarchiver/App.java:170-179 | a parsed record's raw value is appended, without a line break, to its own day's log; the counter goes up by one; the progress text becomes the date field |
| ArchiveProperties.EndToEnd | src/main/java/fr/artestudio/kafkaarchiver/App.java:135-179 | records of 2024-01-01 23:00 then 2024-01-02 03:00 into an empty directory: one upload, of 2024-01-01's archive holding the first record, and only 2024-01-02's log remains, holding the second record |
| Consumer.Archiver.constructor | src/main/java/fr/artestudio/kafkaarchiver/App.java:38-40 | the static fields start as `null`, `null` and `0`; nothing is uploaded yet |
| Consumer.Archiver.PackAndSendCurrentFile | src/main/java/fr/artestudio/kafkaarchiver/App.java:191-212 | the method's new disk, uploads and journal are those of `PackAndSend` |
| Consumer.Archiver.ProcessRecord | src/main/java/fr/artestudio/kafkaarchiver/App.java:135-179 | the method stops exactly when `Step` throws, leaving the state unchanged, and otherwise reaches the state `Step` describes |
| Consumer.Archiver.Consume | src/main/java/fr/artestudio/kafkaarchiver/App.java:133-181 | the loop over a batch reaches the state and the stop flag that `Run` describes |

## Left out

- The Kafka consumer (configuration, subscription, the 100 ms `poll`, `close`): a batch of records is a `seq<string>` given to `Consume`.
- The S3 client: `putObject` appends an `Upload` to a log. Exceptions it might throw are not modelled. In the code such an exception escapes `packAndSendCurrentFile` and the inner handler skips the record.
- Consumer.Archiver.ProcessRecord: does not model a rollover block that throws (an S3 client error or an `InterruptedException` from `Thread.sleep`), which would skip the append and the counter increment, because both come from collaborators outside the model.
- Zip compression and the stream copy: an archive is the list of its entries, each a name and the copied text.
- `SimpleDateFormat` parsing of `dd/MMM/yyyy:HH:mm:ss.S` (leniency, locale): `parse` is a parameter of the model.
- Time zones and daylight saving: a timestamp is a civil date-time in one fixed zone.
- `GregorianCalendar`'s Julian calendar before 1582 and eras: days are proleptic Gregorian, years 0 to 9999. Record years are 1 to 9999, so `yyyy` is always four digits. Year 0 can only appear as the recovery day of a record dated 0001-01-02. There it prints as `0000`, where Java would print the era year.
- CollapseDoubleSpaces: its own contract states only that the value never grows; what the pass does to each run of spaces is stated by `CollapseSpaceRun`, `CollapseWord` and `CollapseGappedRecord`.
- ExtractDateField: characters are Unicode scalar values, not Java's UTF-16 code units. A token 6 made of one supplementary character (`a b c d e f 😀`) has length 2 in Java, so `substring(1, 1)` is empty, parsing fails and the record is skipped; the model counts one character and ends the loop (`MissingFieldIsFatal`). Lengths elsewhere (file names, dates) are ASCII and agree.
- Disk failures other than a missing log (a missing work directory, a full disk, a failed write or delete) are not modelled. Directories are not modelled either, so `exists()` is true only for files.
- A log path that holds an archive rather than text reads as empty when appended to or packed. The model never writes an archive at a log path (`Naming.ZipIsNotLog`).
- The two `Thread.sleep(1000)` pauses: timing only, no effect on state.
- The progress-reporter thread and the unsynchronised sharing of the static fields: the model is sequential. `currentDateString` and `numberOfMessages` are kept, as the fields the reporter reads.
- `synchronized` on `packAndSendCurrentFile`: every call is atomic in the sequential model.
- The NanoHTTPD health endpoint, `main`'s argument parsing and logging: bootstrap and observability only.
