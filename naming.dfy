/**
 * Local file names and remote keys: `formatFilename` (the `yyyy-MM-dd` day
 * format in the work directory), the archive path beside it, the archive's
 * entry name and the object-storage key.
 */
module Naming {
  import opened Wrappers
  import opened Calendar

  /** Where the archiver works and ships to; fixed for the process lifetime. */
  datatype Config = Config(workDirectory: string, separator: char, bucket: string, awsPath: string) {
    /** `File.separator` is `/` or `\`. */
    predicate Valid() {
      separator == '/' || separator == '\\'
    }
  }

  predicate IsDigit(c: char) {
    '0' <= c <= '9'
  }

  function Pow10(w: nat): (p: nat)
    ensures p >= 1
  {
    if w == 0 then 1 else 10 * Pow10(w - 1)
  }

  /** The decimal digits of n, zero-padded to exactly `width` characters (the last `width` digits). */
  function PadDigits(n: nat, width: nat): (s: string)
    ensures |s| == width
    ensures forall i :: 0 <= i < |s| ==> IsDigit(s[i])
  {
    if width == 0 then [] else PadDigits(n / 10, width - 1) + [('0' as int + n % 10) as char]
  }

  /** The number a string of decimal digits denotes. */
  function DigitsValue(s: string): nat
    requires forall i :: 0 <= i < |s| ==> IsDigit(s[i])
  {
    if s == [] then 0
    else
      assert IsDigit(s[|s| - 1]);
      10 * DigitsValue(s[..|s| - 1]) + (s[|s| - 1] as int - '0' as int)
  }

  /** Padding loses nothing for numbers that fit the width. */
  lemma {:induction false} DigitsRoundTrip(n: nat, width: nat)
    requires n < Pow10(width)
    ensures DigitsValue(PadDigits(n, width)) == n
  {
    if width > 0 {
      var s := PadDigits(n, width);
      assert s[..|s| - 1] == PadDigits(n / 10, width - 1);
      DigitsRoundTrip(n / 10, width - 1);
    }
  }

  /** `new SimpleDateFormat("yyyy-MM-dd")` applied to a day. */
  function FormatDate(d: Day): (s: string)
    ensures |s| == 10 && s[4] == '-' && s[7] == '-'
  {
    PadDigits(d.year, 4) + "-" + PadDigits(d.month, 2) + "-" + PadDigits(d.day, 2)
  }

  /** Reads a `yyyy-MM-dd` string back into a date. */
  function ParseDate(s: string): Option<Date> {
    if |s| == 10 && s[4] == '-' && s[7] == '-'
       && (forall i :: 0 <= i < 10 && i != 4 && i != 7 ==> IsDigit(s[i]))
    then Some(Date(DigitsValue(s[..4]), DigitsValue(s[5..7]), DigitsValue(s[8..])))
    else None
  }

  lemma FormatDateRoundTrip(d: Day)
    ensures ParseDate(FormatDate(d)) == Some(d)
  {
    var s := FormatDate(d);
    assert s[..4] == PadDigits(d.year, 4);
    assert s[5..7] == PadDigits(d.month, 2);
    assert s[8..] == PadDigits(d.day, 2);
    DigitsRoundTrip(d.year, 4);
    DigitsRoundTrip(d.month, 2);
    DigitsRoundTrip(d.day, 2);
  }

  /** Two days print alike exactly when they are the same day (what the string comparison at the rollover guard relies on). */
  lemma FormatDateInjective(a: Day, b: Day)
    ensures FormatDate(a) == FormatDate(b) <==> a == b
  {
    FormatDateRoundTrip(a);
    FormatDateRoundTrip(b);
  }

  /** The base name of a day's log file. */
  function LogName(d: Day): string {
    "data-" + FormatDate(d) + ".log"
  }

  /** `formatFilename(date)`: `workDirectory + File.separator + "data-" + yyyy-MM-dd + ".log"`. */
  function LogPath(cfg: Config, d: Day): string {
    cfg.workDirectory + [cfg.separator] + LogName(d)
  }

  /** `new File(filename + ".zip")`. */
  function ZipPath(cfg: Config, d: Day): string {
    LogPath(cfg, d) + ".zip"
  }

  /** The index of the last occurrence of c in s, or -1 (`String.lastIndexOf`). */
  function LastIndexOf(s: string, c: char): (i: int)
    ensures -1 <= i < |s|
    ensures i >= 0 ==> s[i] == c
    ensures forall j :: i < j < |s| ==> s[j] != c
  {
    if s == [] then -1
    else if s[|s| - 1] == c then |s| - 1
    else LastIndexOf(s[..|s| - 1], c)
  }

  /** `StringUtils.substringAfterLast(s, sep)`: the text after the last separator, empty when there is none. */
  function SubstringAfterLast(s: string, sep: char): string {
    var i := LastIndexOf(s, sep);
    if i < 0 then "" else s[i + 1..]
  }

  /** `java.io.File.getName()`: the text after the last separator, the whole path when there is none. */
  function FileName(path: string, sep: char): string {
    var i := LastIndexOf(path, sep);
    if i < 0 then path else path[i + 1..]
  }

  /** `ZipEntry` name used for a day's archive. */
  function EntryName(cfg: Config, d: Day): string {
    SubstringAfterLast(LogPath(cfg, d), cfg.separator)
  }

  /** `conf.awsPath + zipFile.getName()`. */
  function UploadKey(cfg: Config, d: Day): string {
    cfg.awsPath + FileName(ZipPath(cfg, d), cfg.separator)
  }

  /** A path ending in `sep` followed by a separator-free name: both base-name functions return that name. */
  lemma {:induction false} BaseNameOfJoin(dir: string, sep: char, name: string)
    requires forall i :: 0 <= i < |name| ==> name[i] != sep
    ensures LastIndexOf(dir + [sep] + name, sep) == |dir|
    ensures SubstringAfterLast(dir + [sep] + name, sep) == name
    ensures FileName(dir + [sep] + name, sep) == name
  {
    var s := dir + [sep] + name;
    if name == [] {
      assert s[|s| - 1] == sep;
    } else {
      assert s[..|s| - 1] == dir + [sep] + name[..|name| - 1];
      BaseNameOfJoin(dir, sep, name[..|name| - 1]);
    }
  }

  lemma SeparatorNotInLogName(cfg: Config, d: Day)
    requires cfg.Valid()
    ensures forall i :: 0 <= i < |LogName(d) + ".zip"| ==> (LogName(d) + ".zip")[i] != cfg.separator
  {
    var f := FormatDate(d);
    forall i | 0 <= i < |LogName(d) + ".zip"|
      ensures (LogName(d) + ".zip")[i] != cfg.separator
    {
      if 5 <= i < 15 {
        assert (LogName(d) + ".zip")[i] == f[i - 5];
      }
    }
  }

  /**
   * The names the archiver derives for a day: the zip entry is the log's base
   * name and the upload key is the path prefix followed by the archive's base name.
   */
  lemma NamesOfDay(cfg: Config, d: Day)
    requires cfg.Valid()
    ensures ZipPath(cfg, d) == cfg.workDirectory + [cfg.separator] + "data-" + FormatDate(d) + ".log.zip"
    ensures EntryName(cfg, d) == "data-" + FormatDate(d) + ".log"
    ensures UploadKey(cfg, d) == cfg.awsPath + "data-" + FormatDate(d) + ".log.zip"
  {
    SeparatorNotInLogName(cfg, d);
    var n := LogName(d);
    assert forall i :: 0 <= i < |n| ==> n[i] == (n + ".zip")[i];
    BaseNameOfJoin(cfg.workDirectory, cfg.separator, n);
    assert ZipPath(cfg, d) == cfg.workDirectory + [cfg.separator] + (n + ".zip");
    BaseNameOfJoin(cfg.workDirectory, cfg.separator, n + ".zip");
  }

  /** Different days never share a log path, an archive path or an upload key. */
  lemma NamesInjective(cfg: Config, a: Day, b: Day)
    requires cfg.Valid()
    ensures LogPath(cfg, a) == LogPath(cfg, b) <==> a == b
    ensures ZipPath(cfg, a) == ZipPath(cfg, b) <==> a == b
    ensures UploadKey(cfg, a) == UploadKey(cfg, b) <==> a == b
  {
    var k := |cfg.workDirectory| + 6;
    if LogPath(cfg, a) == LogPath(cfg, b) || ZipPath(cfg, a) == ZipPath(cfg, b) {
      assert LogPath(cfg, a)[k..k + 10] == FormatDate(a);
      assert LogPath(cfg, b)[k..k + 10] == FormatDate(b);
      assert ZipPath(cfg, a)[k..k + 10] == FormatDate(a);
      assert ZipPath(cfg, b)[k..k + 10] == FormatDate(b);
      FormatDateInjective(a, b);
    }
    NamesOfDay(cfg, a);
    NamesOfDay(cfg, b);
    var j := |cfg.awsPath| + 5;
    if UploadKey(cfg, a) == UploadKey(cfg, b) {
      assert UploadKey(cfg, a)[j..j + 10] == FormatDate(a);
      assert UploadKey(cfg, b)[j..j + 10] == FormatDate(b);
      FormatDateInjective(a, b);
    }
  }

  /** An archive path is never a log path: all log paths of one work directory have one length, archive paths four more. */
  lemma ZipIsNotLog(cfg: Config, a: Day, b: Day)
    ensures ZipPath(cfg, a) != LogPath(cfg, b)
  {
  }
}
