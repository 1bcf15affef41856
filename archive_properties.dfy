/** What the archiver's state machine guarantees, proved of the functions in ArchiveSpec. */
module ArchiveProperties {
  import opened Wrappers
  import opened Calendar
  import opened Naming
  import opened Extraction
  import opened ArchiveSpec

  /**
   * The guard compares formatted days; it holds exactly when a watermark is
   * set, the record is on another day, past hour 2 and strictly later. The
   * record's day is then strictly after the watermark's day.
   */
  lemma RolloverIff(lastDate: Option<Timestamp>, t: Timestamp)
    ensures Rollover(lastDate, t) <==>
              && lastDate.Some?
              && DayOf(lastDate.value) != DayOf(t)
              && HourOf(t) > 2
              && Before(lastDate.value, t)
    ensures Rollover(lastDate, t) ==> DayBefore(DayOf(lastDate.value), DayOf(t))
  {
    if lastDate.Some? {
      FormatDateInjective(DayOf(lastDate.value), DayOf(t));
      BeforeIsStrictTotalOrder(lastDate.value, t, t);
      DayBeforeIsStrictTotalOrder(DayOf(lastDate.value), DayOf(t), DayOf(t));
    }
  }

  /** A record whose field does not parse is skipped: nothing changes. */
  lemma UnparsedRecordIsSkipped(cfg: Config, parse: string -> Option<Timestamp>, m: Machine, value: string)
    requires IsLong(m.numberOfMessages)
    requires ExtractDateField(value).Ok? && Parsed(parse, value).None?
    ensures Step(cfg, parse, m, value) == Ok(m)
  {
  }

  /** A record without a date field ends the loop, and only such a record does. */
  lemma MissingFieldIsFatal(cfg: Config, parse: string -> Option<Timestamp>, m: Machine, value: string)
    requires IsLong(m.numberOfMessages)
    ensures Step(cfg, parse, m, value).Err? <==> |Tokens(value)| < 7 || |Tokens(value)[6]| < 2
  {
  }

  /** The first parsed record sets the watermark to its own timestamp and ships nothing. */
  lemma FirstRecord(cfg: Config, parse: string -> Option<Timestamp>, m: Machine, value: string, t: Timestamp)
    requires IsLong(m.numberOfMessages)
    requires m.lastDate.None? && Parsed(parse, value) == Some(t)
    ensures Step(cfg, parse, m, value).Ok?
    ensures Step(cfg, parse, m, value).value.lastDate == Some(t)
    ensures Step(cfg, parse, m, value).value.uploads == m.uploads
  {
  }

  /**
   * The watermark is set by the first parsed record and otherwise moves only
   * on a rollover, forward, to the record's timestamp. A record on the
   * watermark's day, at hour 2 or earlier, or not later than the watermark
   * leaves it where it is.
   */
  lemma WatermarkStep(cfg: Config, parse: string -> Option<Timestamp>, m: Machine, value: string, t: Timestamp)
    requires IsLong(m.numberOfMessages)
    requires Parsed(parse, value) == Some(t)
    ensures Step(cfg, parse, m, value).Ok?
    ensures var next := Step(cfg, parse, m, value).value;
            && next.lastDate.Some?
            && (next.lastDate != m.lastDate ==> next.lastDate == Some(t))
            && (m.lastDate.None? ==> next.lastDate == Some(t))
            && (Rollover(m.lastDate, t) ==> next.lastDate == Some(t))
            && (m.lastDate.Some? && next.lastDate != m.lastDate ==>
                  Before(m.lastDate.value, t) && DayBefore(DayOf(m.lastDate.value), DayOf(t)) && HourOf(t) > 2)
            && (m.lastDate.Some? ==>
                  (DayOf(t) == DayOf(m.lastDate.value) || HourOf(t) <= 2 || !Before(m.lastDate.value, t)) ==>
                  next.lastDate == m.lastDate)
  {
    RolloverIff(m.lastDate, t);
  }

  /** Which paths a packing of one day can change: its log and its archive, nothing else. */
  lemma PackAndSendFrame(cfg: Config, m: Machine, day: Day, p: string)
    requires p != LogPath(cfg, day) && p != ZipPath(cfg, day)
    ensures p in PackAndSend(cfg, m, day).fs <==> p in m.fs
    ensures p in m.fs ==> PackAndSend(cfg, m, day).fs[p] == m.fs[p]
  {
  }

  /**
   * packAndSendCurrentFile: afterwards neither the log nor the archive
   * exists, no other file changed, one archive went to the bucket under the
   * path prefix plus the archive's base name, holding one entry named after
   * the log with the log's contents (none when the log was missing), and the
   * effects ran in the order create, upload, delete archive, delete log.
   */
  lemma PackAndSendEffects(cfg: Config, m: Machine, day: Day)
    requires cfg.Valid()
    ensures var after := PackAndSend(cfg, m, day);
            var log, zip := cfg.workDirectory + [cfg.separator] + "data-" + FormatDate(day) + ".log", ZipPath(cfg, day);
            var key := cfg.awsPath + "data-" + FormatDate(day) + ".log.zip";
            && log == LogPath(cfg, day)
            && zip == log + ".zip"
            && log !in after.fs && zip !in after.fs
            && (forall p :: p != log && p != zip ==> (p in after.fs <==> p in m.fs))
            && (forall p :: p != log && p != zip && p in m.fs ==> after.fs[p] == m.fs[p])
            && after.uploads == m.uploads + [Upload(cfg.bucket, key,
                 Zip(if log in m.fs then [ZipEntry("data-" + FormatDate(day) + ".log", TextOf(m.fs, log))] else []))]
            && after.journal == m.journal + [CreateZip(zip), Put(cfg.bucket, key), Delete(zip), Delete(log)]
            && after.(fs := m.fs, uploads := m.uploads, journal := m.journal) == m
  {
    NamesOfDay(cfg, day);
  }

  /** The record's own day, the day before it and the day before that are three different days. */
  lemma ThreeDistinctDays(t: Timestamp)
    ensures DayBefore(RecoveryDay(t), ShipDay(t)) && DayBefore(ShipDay(t), DayOf(t))
    ensures DayOf(t) != ShipDay(t) && DayOf(t) != RecoveryDay(t) && ShipDay(t) != RecoveryDay(t)
  {
    PrevDayIsPredecessor(DayOf(t), DayOf(t));
    PrevDayIsPredecessor(ShipDay(t), ShipDay(t));
    DayBeforeIsStrictTotalOrder(RecoveryDay(t), ShipDay(t), DayOf(t));
    DayBeforeIsStrictTotalOrder(DayOf(t), ShipDay(t), DayOf(t));
    DayBeforeIsStrictTotalOrder(ShipDay(t), RecoveryDay(t), ShipDay(t));
  }

  /** The files a record can affect: its own day's log, and the log and archive of the two days before it. */
  predicate Touched(cfg: Config, t: Timestamp, p: string) {
    || p == LogPath(cfg, DayOf(t))
    || p == LogPath(cfg, ShipDay(t)) || p == ZipPath(cfg, ShipDay(t))
    || p == LogPath(cfg, RecoveryDay(t)) || p == ZipPath(cfg, RecoveryDay(t))
  }

  /** A parsed record changes no file outside the ones it touches. */
  lemma StepFrame(cfg: Config, parse: string -> Option<Timestamp>, m: Machine, value: string, t: Timestamp, p: string)
    requires IsLong(m.numberOfMessages)
    requires Parsed(parse, value) == Some(t)
    requires !Touched(cfg, t, p)
    ensures Step(cfg, parse, m, value).Ok?
    ensures var next := Step(cfg, parse, m, value).value;
            (p in next.fs <==> p in m.fs) && (p in m.fs ==> next.fs[p] == m.fs[p])
  {
    if Rollover(m.lastDate, t) {
      var shipped := PackAndSend(cfg, m, ShipDay(t)).(lastDate := Some(t));
      PackAndSendFrame(cfg, m, ShipDay(t), p);
      PackAndSendFrame(cfg, shipped, RecoveryDay(t), p);
    }
  }

  /**
   * What a record ships: nothing without a rollover; on a rollover first the
   * day before the record's (whatever the watermark's day was), then the day
   * before that, exactly when its log is on disk.
   */
  lemma StepShipments(cfg: Config, parse: string -> Option<Timestamp>, m: Machine, value: string, t: Timestamp)
    requires cfg.Valid() && IsLong(m.numberOfMessages)
    requires Parsed(parse, value) == Some(t)
    ensures Step(cfg, parse, m, value).Ok?
    ensures var next := Step(cfg, parse, m, value).value;
            var shipped := next.uploads[|m.uploads|..];
            && |m.uploads| <= |next.uploads| && next.uploads[..|m.uploads|] == m.uploads
            && (!Rollover(m.lastDate, t) ==> shipped == [])
            && (Rollover(m.lastDate, t) ==>
                  && |shipped| == (if LogPath(cfg, RecoveryDay(t)) in m.fs then 2 else 1)
                  && shipped[0].key == UploadKey(cfg, ShipDay(t))
                  && (|shipped| == 2 ==> shipped[1].key == UploadKey(cfg, RecoveryDay(t))))
  {
    if Rollover(m.lastDate, t) {
      ThreeDistinctDays(t);
      NamesInjective(cfg, ShipDay(t), RecoveryDay(t));
      ZipIsNotLog(cfg, ShipDay(t), RecoveryDay(t));
      PackAndSendFrame(cfg, m, ShipDay(t), LogPath(cfg, RecoveryDay(t)));
    }
  }

  /**
   * The look-back is bounded: a day other than the record's own and the two
   * before it keeps its log and its archive, and nothing is uploaded for it,
   * even when its log is still on disk.
   */
  lemma LookBackIsBounded(cfg: Config, parse: string -> Option<Timestamp>, m: Machine, value: string, t: Timestamp, e: Day)
    requires cfg.Valid() && IsLong(m.numberOfMessages)
    requires Parsed(parse, value) == Some(t)
    requires e != DayOf(t) && e != ShipDay(t) && e != RecoveryDay(t)
    ensures Step(cfg, parse, m, value).Ok?
    ensures var next := Step(cfg, parse, m, value).value;
            && (LogPath(cfg, e) in next.fs <==> LogPath(cfg, e) in m.fs)
            && (LogPath(cfg, e) in m.fs ==> next.fs[LogPath(cfg, e)] == m.fs[LogPath(cfg, e)])
            && (ZipPath(cfg, e) in next.fs <==> ZipPath(cfg, e) in m.fs)
            && (forall k :: |m.uploads| <= k < |next.uploads| ==> next.uploads[k].key != UploadKey(cfg, e))
  {
    NamesInjective(cfg, e, DayOf(t));
    NamesInjective(cfg, e, ShipDay(t));
    NamesInjective(cfg, e, RecoveryDay(t));
    ZipIsNotLog(cfg, e, DayOf(t));
    ZipIsNotLog(cfg, e, ShipDay(t));
    ZipIsNotLog(cfg, e, RecoveryDay(t));
    ZipIsNotLog(cfg, ShipDay(t), e);
    ZipIsNotLog(cfg, RecoveryDay(t), e);
    StepFrame(cfg, parse, m, value, t, LogPath(cfg, e));
    StepFrame(cfg, parse, m, value, t, ZipPath(cfg, e));
    StepShipments(cfg, parse, m, value, t);
  }

  /**
   * A parsed record is appended, as it is and without a line break, to its
   * own day's log (not necessarily today's); the counter goes up by one and
   * the progress text becomes the record's date field.
   */
  lemma StepAppends(cfg: Config, parse: string -> Option<Timestamp>, m: Machine, value: string, t: Timestamp)
    requires cfg.Valid() && IsLong(m.numberOfMessages)
    requires Parsed(parse, value) == Some(t)
    ensures Step(cfg, parse, m, value).Ok?
    ensures var next := Step(cfg, parse, m, value).value;
            var log := LogPath(cfg, DayOf(t));
            && log in next.fs
            && next.fs[log] == Text(TextOf(m.fs, log) + value)
            && next.numberOfMessages == Increment(m.numberOfMessages)
            && next.currentDateString == Some(ExtractDateField(value).value)
            && next.journal[|next.journal| - 1] == Append(log, value)
  {
    ThreeDistinctDays(t);
    NamesInjective(cfg, DayOf(t), ShipDay(t));
    NamesInjective(cfg, DayOf(t), RecoveryDay(t));
    ZipIsNotLog(cfg, ShipDay(t), DayOf(t));
    ZipIsNotLog(cfg, RecoveryDay(t), DayOf(t));
    if Rollover(m.lastDate, t) {
      var log := LogPath(cfg, DayOf(t));
      var shipped := PackAndSend(cfg, m, ShipDay(t)).(lastDate := Some(t));
      PackAndSendFrame(cfg, m, ShipDay(t), log);
      PackAndSendFrame(cfg, shipped, RecoveryDay(t), log);
    }
  }

  /** The watermark's day never goes back, and once set the watermark stays set. */
  lemma WatermarkDayNeverDecreases(cfg: Config, parse: string -> Option<Timestamp>, m: Machine, value: string)
    requires IsLong(m.numberOfMessages)
    requires Step(cfg, parse, m, value).Ok?
    ensures var next := Step(cfg, parse, m, value).value;
            m.lastDate.Some? ==> next.lastDate.Some? && !DayBefore(DayOf(next.lastDate.value), DayOf(m.lastDate.value))
  {
    var t := Parsed(parse, value);
    if t.Some? && m.lastDate.Some? {
      WatermarkStep(cfg, parse, m, value, t.value);
      DayBeforeIsStrictTotalOrder(DayOf(t.value), DayOf(m.lastDate.value), DayOf(t.value));
    }
  }

  /** RolledDays one record at a time: the record's own contribution, then the rest of the batch. */
  lemma RolledDaysUnfold(cfg: Config, parse: string -> Option<Timestamp>, m: Machine, records: seq<string>)
    requires IsLong(m.numberOfMessages)
    requires records != [] && Step(cfg, parse, m, records[0]).Ok?
    ensures var t := Parsed(parse, records[0]);
            RolledDays(cfg, parse, m, records)
            == (if t.Some? && Rollover(m.lastDate, t.value) then [DayOf(t.value)] else [])
               + RolledDays(cfg, parse, Step(cfg, parse, m, records[0]).value, records[1..])
  {
  }

  /** Strictly increasing days. */
  predicate Increasing(days: seq<Day>) {
    forall i, j :: 0 <= i < j < |days| ==> DayBefore(days[i], days[j])
  }

  /** Every day strictly after floor. */
  predicate AllAfter(floor: Day, days: seq<Day>) {
    forall i :: 0 <= i < |days| ==> DayBefore(floor, days[i])
  }

  lemma ConsIncreasing(head: seq<Day>, rest: seq<Day>)
    requires |head| <= 1 && Increasing(rest)
    requires head != [] ==> AllAfter(head[0], rest)
    ensures Increasing(head + rest)
  {
    var days := head + rest;
    forall i, j | 0 <= i < j < |days|
      ensures DayBefore(days[i], days[j])
    {
      if head != [] && i == 0 {
        assert days[j] == rest[j - 1];
      } else {
        assert days[i] == rest[i - |head|] && days[j] == rest[j - |head|];
      }
    }
  }

  /** Every rollover of a batch is on a day strictly after any day the watermark had reached before it. */
  lemma {:induction false} RolledDaysAfter(cfg: Config, parse: string -> Option<Timestamp>, m: Machine, records: seq<string>, floor: Day)
    requires IsLong(m.numberOfMessages)
    requires m.lastDate.Some? && !DayBefore(DayOf(m.lastDate.value), floor)
    ensures AllAfter(floor, RolledDays(cfg, parse, m, records))
    decreases |records|
  {
    if records != [] && Step(cfg, parse, m, records[0]).Ok? {
      var next := Step(cfg, parse, m, records[0]).value;
      var t := Parsed(parse, records[0]);
      var head := if t.Some? && Rollover(m.lastDate, t.value) then [DayOf(t.value)] else [];
      var rest := RolledDays(cfg, parse, next, records[1..]);
      RolledDaysUnfold(cfg, parse, m, records);
      WatermarkDayNeverDecreases(cfg, parse, m, records[0]);
      DayBeforeIsStrictTotalOrder(floor, DayOf(m.lastDate.value), DayOf(next.lastDate.value));
      RolledDaysAfter(cfg, parse, next, records[1..], floor);
      if head != [] {
        RolloverIff(m.lastDate, t.value);
        DayBeforeIsStrictTotalOrder(floor, DayOf(m.lastDate.value), DayOf(t.value));
      }
      assert RolledDays(cfg, parse, m, records) == head + rest;
    }
  }

  /**
   * Over any batch the rollover days strictly increase, all after the
   * watermark's day at the start: each day is rolled over at most once, and
   * after a rollover on day D no later record of day D rolls again.
   */
  lemma {:induction false} RolledDaysIncrease(cfg: Config, parse: string -> Option<Timestamp>, m: Machine, records: seq<string>)
    requires IsLong(m.numberOfMessages)
    ensures Increasing(RolledDays(cfg, parse, m, records))
    ensures m.lastDate.Some? ==> AllAfter(DayOf(m.lastDate.value), RolledDays(cfg, parse, m, records))
    decreases |records|
  {
    if m.lastDate.Some? {
      DayBeforeIsStrictTotalOrder(DayOf(m.lastDate.value), DayOf(m.lastDate.value), DayOf(m.lastDate.value));
      RolledDaysAfter(cfg, parse, m, records, DayOf(m.lastDate.value));
    }
    if records != [] && Step(cfg, parse, m, records[0]).Ok? {
      var next := Step(cfg, parse, m, records[0]).value;
      var t := Parsed(parse, records[0]);
      var head := if t.Some? && Rollover(m.lastDate, t.value) then [DayOf(t.value)] else [];
      var rest := RolledDays(cfg, parse, next, records[1..]);
      RolledDaysUnfold(cfg, parse, m, records);
      RolledDaysIncrease(cfg, parse, next, records[1..]);
      if head != [] {
        WatermarkStep(cfg, parse, m, records[0], t.value);
        DayBeforeIsStrictTotalOrder(DayOf(t.value), DayOf(t.value), DayOf(t.value));
        RolledDaysAfter(cfg, parse, next, records[1..], DayOf(t.value));
      }
      ConsIncreasing(head, rest);
    }
  }

  /**
   * Unfolding aid for the end-to-end lemmas, not a property: `Step` for a
   * parsed record that does not roll over.
   */
  lemma StepWithoutRollover(cfg: Config, parse: string -> Option<Timestamp>, m: Machine, value: string, t: Timestamp)
    requires IsLong(m.numberOfMessages)
    requires Parsed(parse, value) == Some(t) && !Rollover(m.lastDate, t)
    ensures Step(cfg, parse, m, value)
            == Ok(AppendRecord(cfg, m.(currentDateString := Some(ExtractDateField(value).value),
                                       lastDate := if m.lastDate.None? then Some(t) else m.lastDate),
                               DayOf(t), value))
  {
    var field := ExtractDateField(value).value;
    assert ExtractDateField(value) == Ok(field);
  }

  /**
   * Unfolding aid for the end-to-end lemmas, not a property: `Step` for a
   * parsed record that rolls over.
   */
  lemma StepWithRollover(cfg: Config, parse: string -> Option<Timestamp>, m: Machine, value: string, t: Timestamp)
    requires IsLong(m.numberOfMessages)
    requires Parsed(parse, value) == Some(t) && Rollover(m.lastDate, t)
    ensures Step(cfg, parse, m, value)
            == Ok(AppendRecord(cfg, Roll(cfg, m, t).(currentDateString := Some(ExtractDateField(value).value)),
                               DayOf(t), value))
  {
    var field := ExtractDateField(value).value;
    assert ExtractDateField(value) == Ok(field);
  }

  /** The first record of the end-to-end scenario: no rollover, its own day's log is created. */
  lemma EndToEndFirst(cfg: Config, parse: string -> Option<Timestamp>, first: string, t1: Timestamp)
    requires Parsed(parse, first) == Some(t1)
    ensures Step(cfg, parse, Initial(map[]), first)
            == Ok(Machine(Some(t1), Some(ExtractDateField(first).value), 1,
                          map[LogPath(cfg, DayOf(t1)) := Text(first)], [], [Append(LogPath(cfg, DayOf(t1)), first)]))
  {
    StepWithoutRollover(cfg, parse, Initial(map[]), first, t1);
    var log := LogPath(cfg, DayOf(t1));
    assert TextOf(map[], log) + first == first;
    assert map[][log := Text(first)] == map[log := Text(first)];
    assert [] + [Append(log, first)] == [Append(log, first)];
  }

  lemma ScenarioDay()
    ensures FormatDate(Date(2024, 1, 1)) == "2024-01-01"
  {
    assert PadDigits(2, 1) == "2";
    assert PadDigits(20, 2) == "20";
    assert PadDigits(202, 3) == "202";
    assert PadDigits(2024, 4) == "2024";
    assert PadDigits(0, 1) == "0";
    assert PadDigits(1, 2) == "01";
  }

  lemma ScenarioNames(cfg: Config)
    requires cfg.Valid()
    ensures UploadKey(cfg, Date(2024, 1, 1)) == cfg.awsPath + "data-2024-01-01.log.zip"
    ensures EntryName(cfg, Date(2024, 1, 1)) == "data-2024-01-01.log"
  {
    ScenarioDay();
    NamesOfDay(cfg, Date(2024, 1, 1));
  }

  /** In the scenario, the rollover ships 2024-01-01 and finds no log for 2023-12-31. */
  lemma EndToEndRoll(cfg: Config, m1: Machine, first: string, t2: Timestamp)
    requires cfg.Valid()
    requires t2 == Moment(Date(2024, 1, 2), 3 * MillisPerHour)
    requires m1.fs == map[LogPath(cfg, Date(2024, 1, 1)) := Text(first)] && m1.uploads == []
    ensures Roll(cfg, m1, t2).fs == map[]
    ensures Roll(cfg, m1, t2).uploads == [Upload(cfg.bucket, cfg.awsPath + "data-2024-01-01.log.zip",
                                                 Zip([ZipEntry("data-2024-01-01.log", first)]))]
    ensures Roll(cfg, m1, t2).lastDate == Some(t2)
    ensures Roll(cfg, m1, t2).numberOfMessages == m1.numberOfMessages
  {
    var d1: Day := Date(2024, 1, 1);
    assert ShipDay(t2) == d1;
    assert RecoveryDay(t2) == Date(2023, 12, 31);
    ScenarioNames(cfg);
    var shipped := PackAndSend(cfg, m1, d1).(lastDate := Some(t2));
    assert shipped.fs == map[];
    assert TextOf(m1.fs, LogPath(cfg, d1)) == first;
    assert shipped.uploads == [Upload(cfg.bucket, cfg.awsPath + "data-2024-01-01.log.zip",
                                      Zip([ZipEntry("data-2024-01-01.log", first)]))];
  }

  /** The second record of the end-to-end scenario: it rolls over and ships the first day. */
  lemma EndToEndSecond(cfg: Config, parse: string -> Option<Timestamp>, m1: Machine, first: string, second: string)
    requires cfg.Valid()
    requires m1.lastDate == Some(Moment(Date(2024, 1, 1), 23 * MillisPerHour))
    requires m1.numberOfMessages == 1 && m1.uploads == []
    requires m1.fs == map[LogPath(cfg, Date(2024, 1, 1)) := Text(first)]
    requires Parsed(parse, second) == Some(Moment(Date(2024, 1, 2), 3 * MillisPerHour))
    ensures Step(cfg, parse, m1, second).Ok?
    ensures var m2 := Step(cfg, parse, m1, second).value;
            && m2.uploads == [Upload(cfg.bucket, cfg.awsPath + "data-2024-01-01.log.zip",
                                     Zip([ZipEntry("data-2024-01-01.log", first)]))]
            && m2.fs == map[LogPath(cfg, Date(2024, 1, 2)) := Text(second)]
            && m2.lastDate == Some(Moment(Date(2024, 1, 2), 3 * MillisPerHour))
            && m2.numberOfMessages == 2
  {
    var t2: Timestamp := Moment(Date(2024, 1, 2), 3 * MillisPerHour);
    RolloverIff(m1.lastDate, t2);
    StepWithRollover(cfg, parse, m1, second, t2);
    EndToEndRoll(cfg, m1, first, t2);
    assert TextOf(map[], LogPath(cfg, DayOf(t2))) + second == second;
  }

  /**
   * The end-to-end scenario: into an empty work directory, a record of
   * 2024-01-01 23:00 and then one of 2024-01-02 03:00. The second rolls
   * over: the first day's log is archived, uploaded and removed, and the
   * second day's log holds only the second record.
   */
  lemma EndToEnd(cfg: Config, parse: string -> Option<Timestamp>, first: string, second: string)
    requires cfg.Valid()
    requires Parsed(parse, first) == Some(Moment(Date(2024, 1, 1), 23 * MillisPerHour))
    requires Parsed(parse, second) == Some(Moment(Date(2024, 1, 2), 3 * MillisPerHour))
    ensures var out := Run(cfg, parse, Initial(map[]), [first, second]);
            && !out.stopped
            && out.machine.uploads == [Upload(cfg.bucket, cfg.awsPath + "data-2024-01-01.log.zip",
                                              Zip([ZipEntry("data-2024-01-01.log", first)]))]
            && out.machine.fs == map[LogPath(cfg, Date(2024, 1, 2)) := Text(second)]
            && out.machine.lastDate == Some(Moment(Date(2024, 1, 2), 3 * MillisPerHour))
            && out.machine.numberOfMessages == 2
  {
    var t1: Timestamp := Moment(Date(2024, 1, 1), 23 * MillisPerHour);
    EndToEndFirst(cfg, parse, first, t1);
    var m1 := Step(cfg, parse, Initial(map[]), first).value;
    EndToEndSecond(cfg, parse, m1, first, second);
    var m2 := Step(cfg, parse, m1, second).value;
    assert [first, second][1..] == [second];
    assert Run(cfg, parse, m1, [second]) == Run(cfg, parse, m2, []);
  }
}
