/**
 * The camera driver: reading the camera's description out of the
 * `gphoto2 --summary` and `--storage-info` text, the mock and failure
 * outcomes of GetInfo, and Capture with its busy flag and the capture file
 * name IMG_YYYYMMDD_HHMMSS.jpg under <dataDir>/original.
 */
module Camera {
  import opened Wrappers
  import opened Text
  import Storage

  datatype CameraInfo = CameraInfo(
    connected: bool,
    model: string,
    manufacturer: string,
    serialNumber: string,
    lensName: string,
    batteryLevel: string,
    storageTotal: string,
    storageFree: string)

  /** The zero CameraInfo{} value: not connected, every field empty. */
  const Unknown: CameraInfo := CameraInfo(false, "", "", "", "", "", "", "")

  /** The fixed description GetInfo reports in mock mode. */
  const MockInfo: CameraInfo := CameraInfo(
    true, "Canon EOS 700D (Mock)", "Canon Inc.", "MOCK-123456",
    "EF-S 18-55mm f/3.5-5.6 IS STM", "75%", "32 GB", "28 GB")

  // ---------------------------------------------------------------- key/value lines

  /** One trimmed output line split at its first ':', key and value trimmed; None without a ':'. */
  function ParseLine(line: string): (r: Option<(string, string)>)
    ensures r.None? <==> ':' !in TrimSpace(line)
  {
    match CutFirst(TrimSpace(line), ':')
    case None => None
    case Some(kv) => Some((TrimSpace(kv.0), TrimSpace(kv.1)))
  }

  /** A line splits at its first ':' only, so the value keeps any later colons. */
  lemma ParseLineFirstColon(k: string, v: string)
    requires ':' !in k
    requires k == [] || !IsSpace(k[0])
    requires v == [] || !IsSpace(v[|v| - 1])
    ensures ParseLine(k + ":" + v) == Some((TrimSpace(k), TrimSpace(v)))
  {
    var line := k + [':'] + v;
    assert k + ":" + v == line;
    assert !IsSpace(line[0]) by {
      if k != [] { assert line[0] == k[0]; }
    }
    assert TrimLeftSpace(line) == line;
    assert !IsSpace(line[|line| - 1]) by {
      if v != [] { assert line[|line| - 1] == v[|v| - 1]; }
    }
    assert TrimRightSpace(line) == line;
    CutFirstAt(k, ':', v);
  }

  /** Which command's output is being read. */
  datatype Section = Summary | StorageInfo

  /** The CameraInfo fields the two parsers can set. */
  datatype FieldName = Model | Manufacturer | SerialNumber | LensName | BatteryLevel | StorageTotal | StorageFree

  /** The lower-case key naming each field in gphoto2's output. */
  function KeyName(f: FieldName): string {
    match f
    case Model => "model"
    case Manufacturer => "manufacturer"
    case SerialNumber => "serial number"
    case LensName => "lens name"
    case BatteryLevel => "battery level"
    case StorageTotal => "totalcapacity"
    case StorageFree => "free"
  }

  /** The parser whose switch has a case for the field. */
  function SectionOf(f: FieldName): Section {
    if f == StorageTotal || f == StorageFree then StorageInfo else Summary
  }

  lemma KeyNameInjective(f: FieldName, g: FieldName)
    ensures KeyName(f) == KeyName(g) <==> f == g
  {
    if f != g {
      assert KeyName(f)[0] != KeyName(g)[0] || |KeyName(f)| != |KeyName(g)|;
    }
  }

  /** The switch of parseSummary (section Summary) or parseStorage (section StorageInfo). */
  function FieldFor(section: Section, key: string): (r: Option<FieldName>)
    ensures r.Some? ==> KeyName(r.value) == key && SectionOf(r.value) == section
    ensures r.None? ==> forall f :: SectionOf(f) == section ==> KeyName(f) != key
  {
    match section
    case Summary =>
      if key == "model" then Some(Model)
      else if key == "manufacturer" then Some(Manufacturer)
      else if key == "serial number" then Some(SerialNumber)
      else if key == "lens name" then Some(LensName)
      else if key == "battery level" then Some(BatteryLevel)
      else None
    case StorageInfo =>
      if key == "totalcapacity" then Some(StorageTotal)
      else if key == "free" then Some(StorageFree)
      else None
  }

  function Get(info: CameraInfo, f: FieldName): string {
    match f
    case Model => info.model
    case Manufacturer => info.manufacturer
    case SerialNumber => info.serialNumber
    case LensName => info.lensName
    case BatteryLevel => info.batteryLevel
    case StorageTotal => info.storageTotal
    case StorageFree => info.storageFree
  }

  /** Assigning one field changes that field and nothing else. */
  function Set(info: CameraInfo, f: FieldName, val: string): (r: CameraInfo)
    ensures r.connected == info.connected
    ensures forall g :: Get(r, g) == if g == f then val else Get(info, g)
  {
    match f
    case Model => info.(model := val)
    case Manufacturer => info.(manufacturer := val)
    case SerialNumber => info.(serialNumber := val)
    case LensName => info.(lensName := val)
    case BatteryLevel => info.(batteryLevel := val)
    case StorageTotal => info.(storageTotal := val)
    case StorageFree => info.(storageFree := val)
  }

  /** The effect of one line on the description. */
  function ApplyLine(section: Section, info: CameraInfo, line: string): CameraInfo {
    match ParseLine(line)
    case None => info
    case Some(kv) =>
      match FieldFor(section, ToLower(kv.0))
      case None => info
      case Some(f) => Set(info, f, kv.1)
  }

  /** The description after reading every line in order. */
  function ApplyLines(section: Section, lines: seq<string>, info: CameraInfo): CameraInfo {
    if lines == [] then info
    else ApplyLine(section, ApplyLines(section, lines[..|lines| - 1], info), lines[|lines| - 1])
  }

  /** The value of the last line whose lower-cased key is key: a later line overrides an earlier one. */
  function LastValue(lines: seq<string>, key: string): Option<string> {
    if lines == [] then None
    else
      var p := ParseLine(lines[|lines| - 1]);
      if p.Some? && ToLower(p.value.0) == key then Some(p.value.1)
      else LastValue(lines[..|lines| - 1], key)
  }

  function OrElse(o: Option<string>, d: string): string {
    if o.Some? then o.value else d
  }

  /** One line sets field f exactly when it is a key/value line naming f and f belongs to the section. */
  lemma ApplyLineField(section: Section, info: CameraInfo, line: string, f: FieldName)
    ensures ApplyLine(section, info, line).connected == info.connected
    ensures var p := ParseLine(line);
      Get(ApplyLine(section, info, line), f) ==
        if SectionOf(f) == section && p.Some? && ToLower(p.value.0) == KeyName(f) then p.value.1 else Get(info, f)
  {
    var p := ParseLine(line);
    if p.Some? {
      var g := FieldFor(section, ToLower(p.value.0));
      if g.Some? {
        KeyNameInjective(f, g.value);
      }
    }
  }

  /**
   * Reading lines sets each field the section knows to the value of the last
   * line naming it (leaving it as it was when none does), and touches no
   * other field and not the connected flag.
   */
  lemma {:induction false} ApplyLinesFields(section: Section, lines: seq<string>, info: CameraInfo, f: FieldName)
    ensures ApplyLines(section, lines, info).connected == info.connected
    ensures Get(ApplyLines(section, lines, info), f) ==
      if SectionOf(f) == section then OrElse(LastValue(lines, KeyName(f)), Get(info, f)) else Get(info, f)
    decreases |lines|
  {
    if lines != [] {
      var init := lines[..|lines| - 1];
      ApplyLinesFields(section, init, info, f);
      ApplyLineField(section, ApplyLines(section, init, info), lines[|lines| - 1], f);
    }
  }

  /** parseSummary / parseStorage: the loop over the lines of output, writing into info. */
  method ParseOutput(section: Section, output: string, info: CameraInfo) returns (r: CameraInfo)
    ensures r == ApplyLines(section, Split(output, '\n'), info)
  {
    var lines := Split(output, '\n');
    r := info;
    for i := 0 to |lines|
      invariant r == ApplyLines(section, lines[..i], info)
    {
      assert lines[..i + 1][..i] == lines[..i];
      var parts := ParseLine(lines[i]);
      if parts.None? {
        continue;
      }
      var field := FieldFor(section, ToLower(parts.value.0));
      if field.Some? {
        r := Set(r, field.value, parts.value.1);
      }
    }
    assert lines[..|lines|] == lines;
  }

  /**
   * Controller.GetInfo; summary and storage are what the two gphoto2 calls
   * returned (their output, or the error). The storage call is made only
   * after a successful summary call.
   */
  method GetInfo(mock: bool, summary: Result<string, string>, storage: Result<string, string>) returns (r: CameraInfo)
    ensures mock ==> r == MockInfo
    ensures !mock && summary.Failure? ==> r == Unknown
    ensures !mock && summary.Success? ==> r.connected
    ensures !mock && summary.Success? ==>
      var s := ApplyLines(Summary, Split(summary.value, '\n'), Unknown.(connected := true));
      r == if storage.Success? then ApplyLines(StorageInfo, Split(storage.value, '\n'), s) else s
  {
    if mock {
      return MockInfo;
    }
    r := Unknown;
    if summary.Failure? {
      return;
    }
    r := r.(connected := true);
    var s := ParseOutput(Summary, summary.value, r);
    ApplyLinesFields(Summary, Split(summary.value, '\n'), r, Model);
    r := s;
    if storage.Success? {
      r := ParseOutput(StorageInfo, storage.value, r);
      ApplyLinesFields(StorageInfo, Split(storage.value, '\n'), s, StorageFree);
    }
  }

  /** A failed storage call leaves the storage fields empty and keeps what the summary gave. */
  lemma StorageFailureKeepsSummary(summaryLines: seq<string>, f: FieldName)
    requires SectionOf(f) == Summary
    ensures var s := ApplyLines(Summary, summaryLines, Unknown.(connected := true));
      && s.connected && s.storageTotal == "" && s.storageFree == ""
      && Get(s, f) == OrElse(LastValue(summaryLines, KeyName(f)), "")
  {
    var start := Unknown.(connected := true);
    ApplyLinesFields(Summary, summaryLines, start, f);
    ApplyLinesFields(Summary, summaryLines, start, StorageTotal);
    ApplyLinesFields(Summary, summaryLines, start, StorageFree);
  }

  // ---------------------------------------------------------------- capture file names

  /** A wall-clock reading in the local time zone. */
  datatype DateTime = DateTime(year: nat, month: nat, day: nat, hour: nat, minute: nat, second: nat)

  predicate ValidTime(t: DateTime) {
    t.year < 10000 && 1 <= t.month <= 12 && 1 <= t.day <= 31 && t.hour < 24 && t.minute < 60 && t.second < 60
  }

  /** The date half of time.Format("20060102_150405"): yyyymmdd. */
  function DatePart(t: DateTime): string {
    ZeroPad(t.year, 4) + ZeroPad(t.month, 2) + ZeroPad(t.day, 2)
  }

  /** The clock half: hhmmss. */
  function ClockPart(t: DateTime): string {
    ZeroPad(t.hour, 2) + ZeroPad(t.minute, 2) + ZeroPad(t.second, 2)
  }

  /** time.Format("20060102_150405"). */
  function Stamp(t: DateTime): string {
    DatePart(t) + "_" + ClockPart(t)
  }

  function CaptureFileName(t: DateTime): string {
    "IMG_" + Stamp(t) + ".jpg"
  }

  /** Reads yyyymmdd back; None unless all eight are digits. */
  function ParseDate(d: string): Option<(nat, nat, nat)>
    requires |d| == 8
  {
    if !AllDigits(d[..4]) || !AllDigits(d[4..6]) || !AllDigits(d[6..]) then None
    else Some((DigitsValue(d[..4]), DigitsValue(d[4..6]), DigitsValue(d[6..])))
  }

  /** Reads hhmmss back; None unless all six are digits. */
  function ParseClock(c: string): Option<(nat, nat, nat)>
    requires |c| == 6
  {
    if !AllDigits(c[..2]) || !AllDigits(c[2..4]) || !AllDigits(c[4..]) then None
    else Some((DigitsValue(c[..2]), DigitsValue(c[2..4]), DigitsValue(c[4..])))
  }

  /** Reads a capture file name back into the time it was taken at. */
  function ParseCaptureFileName(name: string): Option<DateTime> {
    if |name| != 23 || name[..4] != "IMG_" || name[12] != '_' || name[19..] != ".jpg" then None
    else
      var date := ParseDate(name[4..12]);
      var clock := ParseClock(name[13..19]);
      if date.None? || clock.None? then None
      else
        var t := DateTime(date.value.0, date.value.1, date.value.2, clock.value.0, clock.value.1, clock.value.2);
        if ValidTime(t) then Some(t) else None
  }

  lemma DatePartRoundTrip(t: DateTime)
    requires ValidTime(t)
    ensures |DatePart(t)| == 8
    ensures ParseDate(DatePart(t)) == Some((t.year, t.month, t.day))
  {
    assert Pow10(2) == 100 && Pow10(4) == 10000;
    PadBack(t.year, 4); PadBack(t.month, 2); PadBack(t.day, 2);
    ThreeParts(ZeroPad(t.year, 4), ZeroPad(t.month, 2), ZeroPad(t.day, 2));
  }

  lemma ClockPartRoundTrip(t: DateTime)
    requires ValidTime(t)
    ensures |ClockPart(t)| == 6
    ensures ParseClock(ClockPart(t)) == Some((t.hour, t.minute, t.second))
  {
    assert Pow10(2) == 100;
    PadBack(t.hour, 2); PadBack(t.minute, 2); PadBack(t.second, 2);
    ThreeParts(ZeroPad(t.hour, 2), ZeroPad(t.minute, 2), ZeroPad(t.second, 2));
  }

  /** The capture file name is 23 characters long and encodes its time exactly. */
  lemma CaptureFileNameRoundTrip(t: DateTime)
    requires ValidTime(t)
    ensures |CaptureFileName(t)| == 23
    ensures ParseCaptureFileName(CaptureFileName(t)) == Some(t)
  {
    DatePartRoundTrip(t);
    ClockPartRoundTrip(t);
    var d, c := DatePart(t), ClockPart(t);
    var st := Stamp(t);
    ThreeParts(d, "_", c);
    assert |st| == 15 && st[..8] == d && st[8] == '_' && st[9..] == c;
    var name := CaptureFileName(t);
    ThreeParts("IMG_", st, ".jpg");
    assert name[4..19] == st;
    assert name[4..12] == d && name[13..19] == c && name[12] == '_';
  }

  /** Every capture file counts as a photo of the album. */
  lemma CaptureFileNameIsImage(t: DateTime)
    ensures Storage.IsImage(CaptureFileName(t))
  {
    var q := "IMG_" + Stamp(t);
    assert CaptureFileName(t) == q + ['.'] + "jpg";
    ExtOfTail(q, "jpg");
    assert ToLower(".jpg") == ".jpg";
  }

  // ---------------------------------------------------------------- capture

  /** What the outside world did during one Capture call. */
  datatype CaptureIo = CaptureIo(
    mockWriteError: Option<string>,   // the mock branch's os.WriteFile
    commandError: Option<string>,     // the gphoto2 capture command
    fileExists: bool)                 // os.Stat of the target after the command

  class Controller {
    var busy: bool
    const mock: bool
    const dataDir: string
    /** The path the last started capture wrote to. */
    ghost var lastTarget: string

    /** Between calls the camera is never busy: the whole of Capture runs under the mutex. */
    ghost predicate Idle()
      reads this
    {
      !busy
    }

    constructor (mock: bool, dataDir: string)
      ensures Idle() && this.mock == mock && this.dataDir == dataDir
    {
      this.mock := mock;
      this.dataDir := dataDir;
      busy := false;
      lastTarget := "";
    }

    /** Controller.Capture at wall-clock time now. */
    method Capture(now: DateTime, io: CaptureIo) returns (r: Result<string, string>)
      modifies this`busy, this`lastTarget
      ensures old(busy) ==> r == Failure("camera is busy") && busy && lastTarget == old(lastTarget)
      ensures !old(busy) ==> !busy
      ensures !old(busy) ==> lastTarget == JoinPath(JoinPath(dataDir, "original"), CaptureFileName(now))
      ensures !old(busy) && mock ==>
        r == if io.mockWriteError.Some? then Failure(io.mockWriteError.value) else Success(CaptureFileName(now))
      ensures !old(busy) && !mock ==>
        r == if io.commandError.Some? then Failure("capture failed: " + io.commandError.value)
             else if !io.fileExists then Failure("file not found after capture")
             else Success(CaptureFileName(now))
    {
      if busy {
        return Failure("camera is busy");
      }
      busy := true;
      var filename := CaptureFileName(now);
      var fullPath := JoinPath(JoinPath(dataDir, "original"), filename);
      lastTarget := fullPath;
      if mock {
        if io.mockWriteError.Some? {
          r := Failure(io.mockWriteError.value);
        } else {
          r := Success(filename);
        }
      } else if io.commandError.Some? {
        r := Failure("capture failed: " + io.commandError.value);
      } else if !io.fileExists {
        r := Failure("file not found after capture");
      } else {
        r := Success(filename);
      }
      busy := false;
    }
  }
}
