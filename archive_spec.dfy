/**
 * The archiver's state machine as functions over a snapshot of its state:
 * one consumed record (`Step`), the packing and shipping of one day
 * (`PackAndSend`) and a whole batch of records (`Run`). The class in
 * archiver.dfy implements these step by step.
 */
module ArchiveSpec {
  import opened Wrappers
  import opened Calendar
  import opened Naming
  import opened Extraction

  /** One entry of a zip archive: its name and the bytes copied into it. */
  datatype ZipEntry = ZipEntry(name: string, data: string)

  /** A local file: a text log, or a zip archive seen through its entries. */
  datatype File = Text(data: string) | Zip(entries: seq<ZipEntry>)

  /** The local disk, from path to contents. */
  type FileSystem = map<string, File>

  /** One `putObject(bucket, key, file)` call on the object store. */
  datatype Upload = Upload(bucket: string, key: string, object: File)

  /** The archiver's effects on the outside world, in the order they happen. */
  datatype Effect =
    | CreateZip(path: string)
    | Put(bucket: string, key: string)
    | Delete(path: string)
    | Append(path: string, text: string)

  const MinLong: int := -0x8000_0000_0000_0000
  const MaxLong: int := 0x7fff_ffff_ffff_ffff

  /** The values of a Java `long`. */
  predicate IsLong(n: int) {
    MinLong <= n <= MaxLong
  }

  /** `n++` on a Java `long`: one more, wrapping from the largest value to the smallest. */
  function Increment(n: int): (r: int)
    requires IsLong(n)
    ensures IsLong(r)
    ensures (r - (n + 1)) % 0x1_0000_0000_0000_0000 == 0
    ensures n < MaxLong ==> r == n + 1
  {
    if n == MaxLong then MinLong else n + 1
  }

  /**
   * What the archiver knows and has done: the three static fields, the local
   * disk, the object store's uploads and the journal of effects.
   */
  datatype Machine = Machine(
    lastDate: Option<Timestamp>,
    currentDateString: Option<string>,
    numberOfMessages: int,
    fs: FileSystem,
    uploads: seq<Upload>,
    journal: seq<Effect>)

  /** The state at process start: no watermark, no progress text, no messages. */
  function Initial(fs: FileSystem): Machine {
    Machine(None, None, 0, fs, [], [])
  }

  /** The text held at a path; a missing file reads as empty. */
  function TextOf(fs: FileSystem, path: string): string {
    if path in fs && fs[path].Text? then fs[path].data else ""
  }

  /**
   * `packAndSendCurrentFile(day)`. The zip stream is opened first, so the
   * archive file exists even when opening the log fails; that failure is
   * only logged, and an archive without entries is uploaded. The upload, the
   * deletion of the archive and the deletion of the log then always run.
   */
  function PackAndSend(cfg: Config, m: Machine, day: Day): Machine {
    var log, zip := LogPath(cfg, day), ZipPath(cfg, day);
    var entries := if log in m.fs then [ZipEntry(EntryName(cfg, day), TextOf(m.fs, log))] else [];
    var key := UploadKey(cfg, day);
    m.(fs := m.fs - {zip, log},
       uploads := m.uploads + [Upload(cfg.bucket, key, Zip(entries))],
       journal := m.journal + [CreateZip(zip), Put(cfg.bucket, key), Delete(zip), Delete(log)])
  }

  /**
   * The rollover guard: a watermark is set, its formatted day differs from
   * the record's, the record is past 02:59 and later than the watermark.
   */
  predicate Rollover(lastDate: Option<Timestamp>, t: Timestamp) {
    && lastDate.Some?
    && FormatDate(DayOf(lastDate.value)) != FormatDate(DayOf(t))
    && HourOf(t) > 2
    && Before(lastDate.value, t)
  }

  /** The day a rollover ships: the record's day minus one. */
  function ShipDay(t: Timestamp): Day {
    PrevDay(DayOf(t))
  }

  /** The day the recovery check looks at: the record's day minus two. */
  function RecoveryDay(t: Timestamp): Day {
    PrevDay(ShipDay(t))
  }

  /**
   * The rollover block: ship the previous day, move the watermark to the
   * record, and ship the day before that too if its log is still on disk.
   */
  function Roll(cfg: Config, m: Machine, t: Timestamp): Machine {
    var shipped := PackAndSend(cfg, m, ShipDay(t)).(lastDate := Some(t));
    if LogPath(cfg, RecoveryDay(t)) in shipped.fs then PackAndSend(cfg, shipped, RecoveryDay(t))
    else shipped
  }

  /** The record's raw value appended, with no line break, to its own day's log; the counter moves on. */
  function AppendRecord(cfg: Config, m: Machine, day: Day, value: string): Machine
    requires IsLong(m.numberOfMessages)
  {
    var log := LogPath(cfg, day);
    m.(fs := m.fs[log := Text(TextOf(m.fs, log) + value)],
       numberOfMessages := Increment(m.numberOfMessages),
       journal := m.journal + [Append(log, value)])
  }

  /** The timestamp a record carries, when its field extracts and parses. */
  function Parsed(parse: string -> Option<Timestamp>, value: string): Option<Timestamp> {
    match ExtractDateField(value)
    case Err(_) => None
    case Ok(field) => parse(field)
  }

  /**
   * One iteration of the record loop. A missing field throws out of the loop
   * (`Err`); a field that does not parse skips the record; otherwise the
   * rollover block, the watermark and progress updates, the append and the
   * counter increment run in that order.
   */
  function Step(cfg: Config, parse: string -> Option<Timestamp>, m: Machine, value: string): Result<Machine>
    requires IsLong(m.numberOfMessages)
  {
    match ExtractDateField(value)
    case Err(reason) => Err(reason)
    case Ok(field) =>
      match parse(field)
      case None => Ok(m)
      case Some(t) =>
        var rolled := if Rollover(m.lastDate, t) then Roll(cfg, m, t) else m;
        var noted := rolled.(currentDateString := Some(field),
                             lastDate := if rolled.lastDate.None? then Some(t) else rolled.lastDate);
        Ok(AppendRecord(cfg, noted, DayOf(t), value))
  }

  /** The state after a batch of records, and whether a record ended the loop. */
  datatype RunOutcome = RunOutcome(machine: Machine, stopped: bool)

  /** Consumes records in order until one of them throws. */
  function Run(cfg: Config, parse: string -> Option<Timestamp>, m: Machine, records: seq<string>): RunOutcome
    requires IsLong(m.numberOfMessages)
    decreases |records|
  {
    if records == [] then RunOutcome(m, false)
    else
      match Step(cfg, parse, m, records[0])
      case Err(_) => RunOutcome(m, true)
      case Ok(next) => Run(cfg, parse, next, records[1..])
  }

  /** The days of the records that triggered a rollover during a batch, in order. */
  function RolledDays(cfg: Config, parse: string -> Option<Timestamp>, m: Machine, records: seq<string>): seq<Day>
    requires IsLong(m.numberOfMessages)
    decreases |records|
  {
    if records == [] then []
    else
      match Step(cfg, parse, m, records[0])
      case Err(_) => []
      case Ok(next) =>
        var t := Parsed(parse, records[0]);
        (if t.Some? && Rollover(m.lastDate, t.value) then [DayOf(t.value)] else [])
        + RolledDays(cfg, parse, next, records[1..])
  }
}
