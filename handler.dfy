/**
 * The HTTP handler's own logic: how a settings request changes the Booth
 * section (clamping, strategy validation, which album the strategy belongs
 * to), how the logs endpoint reads its limit, and the guard that lets only
 * one USB export run at a time. Requests arrive already decoded (None when
 * the JSON body did not decode); responses are their status codes.
 */
module Api {
  import opened Wrappers
  import opened Text
  import Config
  import App
  import Events
  import Usb
  import Logging

  function Clamp(v: int, lo: int, hi: int): (r: int)
    requires lo <= hi
    ensures lo <= r <= hi
    ensures lo <= v <= hi ==> r == v
    ensures v < lo ==> r == lo
    ensures v > hi ==> r == hi
  {
    if v < lo then lo else if v > hi then hi else v
  }

  // ---------------------------------------------------------------- settings

  /** The fields of a POST /api/settings body; a missing field is None. */
  datatype SettingsRequest = SettingsRequest(
    countdownSeconds: Option<int>,
    previewDisplaySeconds: Option<int>,
    triggerDelayMs: Option<int>,
    currentAlbum: Option<string>,
    captureStrategy: Option<string>)

  const InvalidStrategy := "captureStrategy must be A, B, C or D"

  function NormalizeStrategy(raw: string): string {
    ToUpper(TrimSpace(raw))
  }

  predicate ValidStrategy(v: string) {
    v == "A" || v == "B" || v == "C" || v == "D"
  }

  /** The album named by the request, when it names one (an empty name does not). */
  function RequestAlbum(req: SettingsRequest): Option<string> {
    if req.currentAlbum.Some? && req.currentAlbum.value != "" then req.currentAlbum else None
  }

  /** The album whose capture method a valid strategy is stored under. */
  function StrategyAlbum(b: Config.BoothConfig, req: SettingsRequest): string {
    var album := RequestAlbum(req);
    if album.Some? then Config.SanitizeAlbumName(album.value) else b.currentAlbum
  }

  function ClampField(given: Option<int>, current: int, lo: int, hi: int): (r: int)
    requires lo <= hi
    ensures given.None? ==> r == current
    ensures given.Some? ==> lo <= r <= hi && (lo <= given.value <= hi ==> r == given.value)
  {
    if given.Some? then Clamp(given.value, lo, hi) else current
  }

  /**
   * The Booth copy postSettings hands to UpdateBooth, or the 400 message.
   * Selecting the request's album happens afterwards, in SetAlbum.
   */
  function ApplySettings(b: Config.BoothConfig, req: SettingsRequest): Result<Config.BoothConfig, string> {
    var c := b.(
      countdownSeconds := ClampField(req.countdownSeconds, b.countdownSeconds, 1, 10),
      previewDisplaySeconds := ClampField(req.previewDisplaySeconds, b.previewDisplaySeconds, 1, 30),
      triggerDelayMs := ClampField(req.triggerDelayMs, b.triggerDelayMs, -3000, 1000));
    if req.captureStrategy.None? then Success(c)
    else
      var v := NormalizeStrategy(req.captureStrategy.value);
      if !ValidStrategy(v) then Failure(InvalidStrategy)
      else
        var methods := if c.albumCaptureMethods.None? then map[] else c.albumCaptureMethods.value;
        Success(c.(albumCaptureMethods := Some(methods[StrategyAlbum(b, req) := v])))
  }

  /** postSettings' edits of its local copy of the Booth section, field by field. */
  method EditBooth(b: Config.BoothConfig, req: SettingsRequest) returns (r: Result<Config.BoothConfig, string>)
    ensures r == ApplySettings(b, req)
  {
    var booth := b;
    if req.countdownSeconds.Some? {
      booth := booth.(countdownSeconds := Clamp(req.countdownSeconds.value, 1, 10));
    }
    if req.previewDisplaySeconds.Some? {
      booth := booth.(previewDisplaySeconds := Clamp(req.previewDisplaySeconds.value, 1, 30));
    }
    if req.triggerDelayMs.Some? {
      booth := booth.(triggerDelayMs := Clamp(req.triggerDelayMs.value, -3000, 1000));
    }
    if req.captureStrategy.Some? {
      var v := NormalizeStrategy(req.captureStrategy.value);
      if !ValidStrategy(v) {
        return Failure(InvalidStrategy);
      }
      var methods := if booth.albumCaptureMethods.None? then map[] else booth.albumCaptureMethods.value;
      var target := booth.currentAlbum;
      if req.currentAlbum.Some? && req.currentAlbum.value != "" {
        target := Config.SanitizeAlbumName(req.currentAlbum.value);
      }
      booth := booth.(albumCaptureMethods := Some(methods[target := v]));
    }
    return Success(booth);
  }

  /** The request is refused exactly when it carries a strategy that is not A-D after trimming and upper-casing. */
  lemma SettingsRefusal(b: Config.BoothConfig, req: SettingsRequest)
    ensures ApplySettings(b, req).Failure? <==>
      req.captureStrategy.Some? && !ValidStrategy(NormalizeStrategy(req.captureStrategy.value))
    ensures ApplySettings(b, req).Failure? ==> ApplySettings(b, req).error == InvalidStrategy
  {
  }

  /**
   * An accepted request leaves every given number in its range, every
   * absent one as it was, and the album, display names and photo base
   * untouched.
   */
  lemma SettingsClamped(b: Config.BoothConfig, req: SettingsRequest)
    requires ApplySettings(b, req).Success?
    ensures var r := ApplySettings(b, req).value;
      && (req.countdownSeconds.Some? ==> 1 <= r.countdownSeconds <= 10)
      && (req.countdownSeconds.None? ==> r.countdownSeconds == b.countdownSeconds)
      && (req.previewDisplaySeconds.Some? ==> 1 <= r.previewDisplaySeconds <= 30)
      && (req.previewDisplaySeconds.None? ==> r.previewDisplaySeconds == b.previewDisplaySeconds)
      && (req.triggerDelayMs.Some? ==> -3000 <= r.triggerDelayMs <= 1000)
      && (req.triggerDelayMs.None? ==> r.triggerDelayMs == b.triggerDelayMs)
      && r.currentAlbum == b.currentAlbum && r.albumDisplayNames == b.albumDisplayNames
      && r.photosBasePath == b.photosBasePath
  {
  }

  /**
   * An accepted strategy is stored, normalised, under the request's
   * sanitized album or else the current one, and no other album's method
   * changes; without a strategy the methods stay as they were.
   */
  lemma SettingsStrategy(b: Config.BoothConfig, req: SettingsRequest)
    requires ApplySettings(b, req).Success?
    ensures var r := ApplySettings(b, req).value;
      && (req.captureStrategy.None? ==> r.albumCaptureMethods == b.albumCaptureMethods)
      && (req.captureStrategy.Some? ==>
            && Config.Lookup(r.albumCaptureMethods, StrategyAlbum(b, req)) == Some(NormalizeStrategy(req.captureStrategy.value))
            && ValidStrategy(NormalizeStrategy(req.captureStrategy.value))
            && forall k :: k != StrategyAlbum(b, req) ==> Config.Lookup(r.albumCaptureMethods, k) == Config.Lookup(b.albumCaptureMethods, k))
  {
  }

  /** Clamping a second time changes nothing. */
  lemma ClampIdempotent(v: int, lo: int, hi: int)
    requires lo <= hi
    ensures Clamp(Clamp(v, lo, hi), lo, hi) == Clamp(v, lo, hi)
  {
  }

  /** A lower-case strategy with surrounding blanks is accepted as the upper-case letter. */
  lemma StrategyNormalizedExample()
    ensures NormalizeStrategy(" b ") == "B"
  {
    assert TrimLeftSpace(" b ") == "b ";
    assert TrimSpace(" b ") == "b";
    assert ToUpper("b") == "B";
  }

  // ---------------------------------------------------------------- logs

  /** The limit of GET /api/logs: 100 unless the query is a positive integer. */
  function LogsLimit(query: string): (n: int)
    ensures n > 0
  {
    if query != "" && Atoi(query).Some? && Atoi(query).value > 0 then Atoi(query).value else 100
  }

  /** The limit is the query's value exactly when that parses as a positive integer; anything else gives 100. */
  lemma LogsLimitCases(query: string)
    ensures Atoi(query).Some? && Atoi(query).value > 0 ==> LogsLimit(query) == Atoi(query).value
    ensures !(Atoi(query).Some? && Atoi(query).value > 0) ==> LogsLimit(query) == 100
  {
  }

  /** A limit printed in decimal reads back as itself. */
  lemma LogsLimitOfPrinted(n: nat)
    requires 0 < n <= MaxInt64
    ensures LogsLimit(NatToString(n)) == n
  {
    AtoiNatToString(n);
  }

  /** The empty, negative and non-numeric limits all fall back to 100. */
  lemma LogsLimitFallbacks()
    ensures LogsLimit("") == 100
    ensures LogsLimit("-5") == 100
    ensures LogsLimit("abc") == 100
  {
    assert "-5"[1..] == "5";
    assert Atoi("-5") == Some(-5) by {
      assert AllDigits("5");
      assert DigitsValue("5") == 5 by { assert "5"[..0] == []; }
    }
    assert !IsDigit("abc"[0]);
  }

  // ---------------------------------------------------------------- USB export

  /** What an accepted export works on: the device, the album as the request spelled it, and the folder to copy. */
  datatype ExportJob = ExportJob(deviceName: string, albumName: string, srcDir: string)

  /** One call of the copy's progress callback: the counters and the ETA it computed. */
  datatype ProgressReport = ProgressReport(progress: Usb.Progress, etaSeconds: int)

  function ProgressEvents(album: string, reports: seq<ProgressReport>): (r: seq<Events.Event>)
    ensures |r| == |reports|
    ensures forall i :: 0 <= i < |r| ==> r[i].kind == Events.UsbExportProgress
  {
    if reports == [] then []
    else
      var p := reports[0].progress;
      [Events.Event(Events.UsbExportProgress,
         Events.ProgressData(album, p.copiedBytes, p.totalBytes, p.copiedFiles, p.totalFiles, reports[0].etaSeconds))]
      + ProgressEvents(album, reports[1..])
  }

  /** Where a successful export puts the album on the stick. */
  function ExportDestination(mountPoint: string, album: string): string {
    JoinPath(JoinPath(mountPoint, "Photobooth_Export"), album)
  }

  /**
   * The events of one export task: its start, then a mount error, or the
   * progress reports followed by a copy error or the success.
   */
  function ExportEvents(job: ExportJob, mount: Result<string, string>, reports: seq<ProgressReport>, copyOk: bool, cancelled: bool): seq<Events.Event> {
    var start := Events.Event(Events.UsbExportStart, Events.AlbumData(job.albumName));
    if mount.Failure? then
      [start, Events.Event(Events.UsbExportError, Events.MessageData("Mount failed: " + mount.error))]
    else if !copyOk then
      [start] + ProgressEvents(job.albumName, reports)
      + [Events.Event(Events.UsbExportError, Events.MessageData(if cancelled then "Export cancelled" else "Copy failed"))]
    else
      [start] + ProgressEvents(job.albumName, reports)
      + [Events.Event(Events.UsbExportSuccess, Events.ExportDoneData(job.albumName, ExportDestination(mount.value, job.albumName)))]
  }

  predicate Terminal(e: Events.Event) {
    e.kind == Events.UsbExportError || e.kind == Events.UsbExportSuccess
  }

  /**
   * Every export task announces its start first and ends with exactly one
   * terminal event, an error or the success, with only progress between.
   */
  lemma ExportEventsShape(job: ExportJob, mount: Result<string, string>, reports: seq<ProgressReport>, copyOk: bool, cancelled: bool)
    ensures var r := ExportEvents(job, mount, reports, copyOk, cancelled);
      && |r| >= 2 && r[0].kind == Events.UsbExportStart && Terminal(r[|r| - 1])
      && (forall i :: 0 < i < |r| - 1 ==> r[i].kind == Events.UsbExportProgress)
      && (r[|r| - 1].kind == Events.UsbExportSuccess <==> mount.Success? && copyOk)
  {
    var r := ExportEvents(job, mount, reports, copyOk, cancelled);
    if mount.Success? {
      var ps := ProgressEvents(job.albumName, reports);
      forall i | 0 < i < |r| - 1 ensures r[i].kind == Events.UsbExportProgress {
        assert r[i] == ps[i - 1];
      }
    }
  }

  /** A cancelled copy is reported as cancelled, a failed one as failed; neither as a success. */
  lemma CancelledCopyMessage(job: ExportJob, mountPoint: string, reports: seq<ProgressReport>)
    ensures var r := ExportEvents(job, Success(mountPoint), reports, false, true);
      r[|r| - 1] == Events.Event(Events.UsbExportError, Events.MessageData("Export cancelled"))
    ensures var r := ExportEvents(job, Success(mountPoint), reports, false, false);
      r[|r| - 1] == Events.Event(Events.UsbExportError, Events.MessageData("Copy failed"))
  {
  }

  class Handler {
    const app: App.App
    var exportActive: bool
    /** Whether exportCancel is set. */
    var hasCancel: bool
    /** Whether the running export's context has been cancelled. */
    var cancelRequested: bool

    /** The two guard fields are set and cleared together, under the mutex. */
    ghost predicate Valid()
      reads this
    {
      exportActive == hasCancel
    }

    constructor (app: App.App)
      ensures this.app == app && Valid() && !exportActive && !hasCancel && !cancelRequested
    {
      this.app := app;
      exportActive := false;
      hasCancel := false;
      cancelRequested := false;
    }

    /**
     * postSettings: 400 for an undecodable body or an invalid strategy,
     * with nothing changed; otherwise the copy goes through UpdateBooth and
     * then, when the request names an album, SetAlbum selects it. A failed
     * save (saveOk false) answers 500 after the changes are made.
     */
    method PostSettings(request: Option<SettingsRequest>, saveOk: bool) returns (status: int)
      modifies app.cfg`booth, app.store`rootDir
      ensures request.None? || ApplySettings(old(app.cfg.booth), request.value).Failure? ==>
        status == 400 && app.cfg.booth == old(app.cfg.booth) && app.store.rootDir == old(app.store.rootDir)
      ensures request.Some? && ApplySettings(old(app.cfg.booth), request.value).Success? ==>
        var applied := ApplySettings(old(app.cfg.booth), request.value).value;
        var album := RequestAlbum(request.value);
        && status == (if saveOk then 200 else 500)
        && (album.None? ==> app.cfg.booth == applied && app.store.rootDir == old(app.store.rootDir))
        && (album.Some? ==>
              var id := Config.SanitizeAlbumName(album.value);
              app.cfg.booth == App.SelectAlbum(applied, id, album.value)
              && app.store.rootDir == JoinPath(applied.photosBasePath, id))
    {
      if request.None? {
        return 400;
      }
      var req := request.value;
      var edited := EditBooth(app.cfg.booth, req);
      if edited.Failure? {
        return 400;
      }
      var booth := edited.value;
      app.cfg.UpdateBooth(booth);
      if req.currentAlbum.Some? && req.currentAlbum.value != "" {
        var id := app.SetAlbum(req.currentAlbum.value);
      }
      status := if saveOk then 200 else 500;
    }

    /** handleLogs over the default logger. */
    method HandleLogs(logger: Logging.Logger, query: string) returns (entries: seq<Logging.Entry>)
      ensures entries == Logging.LastEntries(logger.entries, LogsLimit(query))
      ensures |entries| <= |logger.entries| && entries == logger.entries[|logger.entries| - |entries|..]
    {
      var limit := 100;
      if query != "" {
        var n := Atoi(query);
        if n.Some? && n.value > 0 {
          limit := n.value;
        }
      }
      entries := logger.GetEntries(limit);
    }

    /**
     * handleUsbExport up to starting the task: 400 for a bad body or a
     * missing name, 409 with the guard untouched while an export runs;
     * otherwise the guard is taken and the job names the album's original/
     * folder.
     */
    method StartExport(request: Option<(string, string)>) returns (status: int, job: Option<ExportJob>)
      requires Valid()
      modifies this`exportActive, this`hasCancel, this`cancelRequested
      ensures Valid()
      ensures request.None? || request.value.0 == "" || request.value.1 == "" ==>
        status == 400 && job.None? && exportActive == old(exportActive) && cancelRequested == old(cancelRequested)
      ensures request.Some? && request.value.0 != "" && request.value.1 != "" && old(exportActive) ==>
        status == 409 && job.None? && exportActive && cancelRequested == old(cancelRequested)
      ensures request.Some? && request.value.0 != "" && request.value.1 != "" && !old(exportActive) ==>
        && status == 200 && exportActive && !cancelRequested
        && job == Some(ExportJob(request.value.0, request.value.1,
             JoinPath(JoinPath(app.cfg.booth.photosBasePath, Config.SanitizeAlbumName(request.value.1)), "original")))
    {
      if request.None? {
        return 400, None;
      }
      var (deviceName, albumName) := request.value;
      if deviceName == "" || albumName == "" {
        return 400, None;
      }
      if exportActive {
        return 409, None;
      }
      exportActive := true;
      hasCancel := true;
      cancelRequested := false;
      var sanitized := Config.SanitizeAlbumName(albumName);
      var srcDir := JoinPath(JoinPath(app.cfg.booth.photosBasePath, sanitized), "original");
      return 200, Some(ExportJob(deviceName, albumName, srcDir));
    }

    /**
     * The export task from start to finish: mount is what mounting
     * returned, reports the progress callbacks, copyOk whether the copy
     * succeeded. Whatever the path, the guard is released.
     */
    method RunExport(job: ExportJob, mount: Result<string, string>, reports: seq<ProgressReport>, copyOk: bool)
      requires Valid() && exportActive
      modifies this`exportActive, this`hasCancel, app`events
      ensures Valid() && !exportActive && !hasCancel
      ensures app.events == old(app.events) + ExportEvents(job, mount, reports, copyOk, cancelRequested)
    {
      var added := [Events.Event(Events.UsbExportStart, Events.AlbumData(job.albumName))];
      if mount.Failure? {
        added := added + [Events.Event(Events.UsbExportError, Events.MessageData("Mount failed: " + mount.error))];
      } else {
        var dstDir := JoinPath(JoinPath(mount.value, "Photobooth_Export"), job.albumName);
        added := added + ProgressEvents(job.albumName, reports);
        if !copyOk {
          var message := "Copy failed";
          if cancelRequested {
            message := "Export cancelled";
          }
          added := added + [Events.Event(Events.UsbExportError, Events.MessageData(message))];
        } else {
          added := added + [Events.Event(Events.UsbExportSuccess, Events.ExportDoneData(job.albumName, dstDir))];
        }
      }
      app.events := app.events + added;
      exportActive := false;
      hasCancel := false;
    }

    /** handleUsbExportCancel: 409 when nothing runs; otherwise the running copy's context is cancelled. */
    method CancelExport() returns (status: int)
      modifies this`cancelRequested
      ensures !exportActive || !hasCancel ==> status == 409 && cancelRequested == old(cancelRequested)
      ensures exportActive && hasCancel ==> status == 200 && cancelRequested
    {
      if !exportActive || !hasCancel {
        return 409;
      }
      cancelRequested := true;
      return 200;
    }

    /**
     * handleUsbUnmount: 400 without a device name, 409 while an export
     * runs, 500 when listing fails, 404 when the first device of that name
     * is not mounted (or there is none), 500 when umount fails, else 200.
     * devices is what listing the devices returned, umountError what
     * unmounting reported.
     */
    method Unmount(request: Option<string>, devices: Result<seq<Usb.UsbDevice>, string>, umountError: Option<(string, string)>)
      returns (status: int, unmounted: Option<string>)
      ensures request.None? || request.value == "" ==> status == 400 && unmounted.None?
      ensures request.Some? && request.value != "" && exportActive ==> status == 409 && unmounted.None?
      ensures request.Some? && request.value != "" && !exportActive ==>
        if devices.Failure? then status == 500 && unmounted.None?
        else
          var k := Usb.FirstByName(devices.value, request.value);
          var mountPoint := if k.None? then "" else devices.value[k.value].mountPoint;
          if mountPoint == "" then status == 404 && unmounted.None?
          else if umountError.Some? then status == 500 && unmounted.None?
          else status == 200 && unmounted == Some(mountPoint)
    {
      if request.None? || request.value == "" {
        return 400, None;
      }
      if exportActive {
        return 409, None;
      }
      if devices.Failure? {
        return 500, None;
      }
      var name := request.value;
      var list := devices.value;
      var mountPoint := "";
      var i := 0;
      while i < |list|
        invariant 0 <= i <= |list|
        invariant forall j :: 0 <= j < i ==> list[j].name != name
      {
        if list[i].name == name {
          mountPoint := list[i].mountPoint;
          assert Usb.FirstByName(list, name) == Some(i);
          break;
        }
        i := i + 1;
      }
      if mountPoint == "" {
        return 404, None;
      }
      var err := Usb.UnmountUsb(umountError);
      if err.Some? {
        return 500, None;
      }
      return 200, Some(mountPoint);
    }
  }

  /** A second export while one runs is refused, and the first keeps the guard and its uncancelled context. */
  method SecondExportRefused(h: Handler, first: (string, string), second: (string, string)) returns (a: int, b: int)
    requires h.Valid() && !h.exportActive
    requires first.0 != "" && first.1 != "" && second.0 != "" && second.1 != ""
    modifies h`exportActive, h`hasCancel, h`cancelRequested
    ensures a == 200 && b == 409 && h.exportActive && h.Valid() && !h.cancelRequested
  {
    var job1, job2;
    a, job1 := h.StartExport(Some(first));
    b, job2 := h.StartExport(Some(second));
  }

  /** Unmounting is refused for as long as an export runs, whatever the devices. */
  method UnmountDuringExport(h: Handler, name: string, devices: Result<seq<Usb.UsbDevice>, string>) returns (status: int)
    requires name != "" && h.exportActive
    ensures status == 409
  {
    var unmounted;
    status, unmounted := h.Unmount(Some(name), devices, None);
  }
}
