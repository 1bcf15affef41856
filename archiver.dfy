/**
 * The consumer thread's state and its two operations, written as the Java
 * code runs them: the static fields become fields of `Archiver`, the local
 * disk and the object store become fields the methods reassign, and every
 * method is proved to do what the functions of ArchiveSpec describe.
 */
module Consumer {
  import opened Wrappers
  import opened Calendar
  import opened Naming
  import opened Extraction
  import opened ArchiveSpec

  class Archiver {
    /** The process configuration (work directory, separator, bucket, key prefix). */
    const cfg: Config
    /** `dateFormatter.parse`: the timestamp a date field denotes, if any. */
    const parse: string -> Option<Timestamp>

    /** The watermark: the timestamp of the last rollover, or of the first parsed record. */
    var lastDate: Option<Timestamp>
    /** The date field of the last accepted record, read by the progress reporter. */
    var currentDateString: Option<string>
    /** The number of records appended so far, a Java `long`. */
    var numberOfMessages: int
    /** The local disk. */
    var fs: FileSystem
    /** Every `putObject` call made so far, in order. */
    var uploads: seq<Upload>
    /** Every effect on the disk and the object store so far, in order. */
    var journal: seq<Effect>

    ghost predicate Valid()
      reads this
    {
      cfg.Valid() && IsLong(numberOfMessages)
    }

    /** The state as a value, to compare with the functions of ArchiveSpec. */
    function Snapshot(): Machine
      reads this
    {
      Machine(lastDate, currentDateString, numberOfMessages, fs, uploads, journal)
    }

    /** The state at process start, over the disk as the previous instance left it. */
    constructor (cfg: Config, parse: string -> Option<Timestamp>, disk: FileSystem)
      requires cfg.Valid()
      ensures Valid()
      ensures this.cfg == cfg && this.parse == parse
      ensures Snapshot() == Initial(disk)
    {
      this.cfg := cfg;
      this.parse := parse;
      lastDate := None;
      currentDateString := None;
      numberOfMessages := 0;
      fs := disk;
      uploads := [];
      journal := [];
    }

    /**
     * `packAndSendCurrentFile(date)`: zip the day's log into a single-entry
     * archive beside it, upload the archive, then delete the archive and the log.
     */
    method PackAndSendCurrentFile(day: Day)
      requires Valid()
      modifies this
      ensures Valid()
      ensures Snapshot() == PackAndSend(cfg, old(Snapshot()), day)
    {
      var filename := LogPath(cfg, day);
      var zipFile := filename + ".zip";
      var logFile := filename;
      // The archive is opened for writing before the log is opened for reading:
      // when the log is missing the IOException is only logged and the archive stays empty.
      var entries: seq<ZipEntry> := [];
      if logFile in fs {
        entries := [ZipEntry(SubstringAfterLast(filename, cfg.separator), TextOf(fs, logFile))];
      }
      fs := fs[zipFile := Zip(entries)];
      journal := journal + [CreateZip(zipFile)];
      var key := cfg.awsPath + FileName(zipFile, cfg.separator);
      uploads := uploads + [Upload(cfg.bucket, key, fs[zipFile])];
      journal := journal + [Put(cfg.bucket, key)];
      fs := fs - {zipFile};
      journal := journal + [Delete(zipFile)];
      fs := fs - {logFile};
      journal := journal + [Delete(logFile)];
      assert fs == old(fs) - {zipFile, logFile};
    }

    /**
     * One iteration of the record loop. Returns true when the record has no
     * date field: that exception escapes the loop and ends the consumer.
     */
    method ProcessRecord(value: string) returns (stopped: bool)
      requires Valid()
      modifies this
      ensures Valid()
      ensures stopped <==> Step(cfg, parse, old(Snapshot()), value).Err?
      ensures stopped ==> Snapshot() == old(Snapshot())
      ensures !stopped ==> Snapshot() == Step(cfg, parse, old(Snapshot()), value).value
    {
      var field := ExtractDateField(value);
      if field.Err? {
        return true;
      }
      var dateString := field.value;
      var parsed := parse(dateString);
      if parsed.None? {
        // caught by the inner handler: the record is skipped
        return false;
      }
      var date := parsed.value;
      var filename := LogPath(cfg, DayOf(date));
      if Rollover(lastDate, date) {
        var shipDay := PrevDay(DayOf(date));
        PackAndSendCurrentFile(shipDay);
        lastDate := Some(date);
        // a log of the day before may have been left behind by a previous instance
        var olderDay := PrevDay(shipDay);
        if LogPath(cfg, olderDay) in fs {
          PackAndSendCurrentFile(olderDay);
        }
      }
      currentDateString := Some(dateString);
      if lastDate.None? {
        lastDate := Some(date);
      }
      fs := fs[filename := Text(TextOf(fs, filename) + value)];
      journal := journal + [Append(filename, value)];
      numberOfMessages := Increment(numberOfMessages);
      stopped := false;
    }

    /** The record loop over one batch of records, ending early when a record throws. */
    method Consume(records: seq<string>) returns (stopped: bool)
      requires Valid()
      modifies this
      ensures Valid()
      ensures RunOutcome(Snapshot(), stopped) == Run(cfg, parse, old(Snapshot()), records)
    {
      stopped := false;
      var i := 0;
      while i < |records| && !stopped
        invariant 0 <= i <= |records|
        invariant Valid()
        invariant !stopped ==> Run(cfg, parse, old(Snapshot()), records) == Run(cfg, parse, Snapshot(), records[i..])
        invariant stopped ==> Run(cfg, parse, old(Snapshot()), records) == RunOutcome(Snapshot(), true)
      {
        assert records[i..][1..] == records[i + 1..];
        stopped := ProcessRecord(records[i]);
        i := i + 1;
      }
    }
  }
}
