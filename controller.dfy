/**
 * The capture session state machine of the booth: the application state
 * (idle, countdown, capturing, processing, preview, error), the capture
 * sequence number, the countdown fields and the last photo, and the steps
 * of one capture run. Every event handed to the hub becomes an append to a
 * ghost log. Sleeps and the goroutine that fires the camera become the
 * order in which a run's steps are called: the capture result is consumed
 * only after the zero tick.
 *
 * Also here: the uptime string, the gallery count filter, the album list,
 * and the guards of album selection and deletion.
 */
module App {
  import opened Wrappers
  import opened Text
  import Events
  import Config
  import Storage

  datatype State = Idle | Countdown | Capturing | Processing | Preview | Error

  function StateName(s: State): string {
    match s
    case Idle => "idle"
    case Countdown => "countdown"
    case Capturing => "capturing"
    case Processing => "processing"
    case Preview => "preview"
    case Error => "error"
  }

  /** Status events name the state unambiguously. */
  lemma StateNameInjective(a: State, b: State)
    ensures StateName(a) == StateName(b) <==> a == b
  {
  }

  /** What SetState(s) hands to the hub. */
  function StatusOf(s: State): Events.Event {
    Events.StatusEvent(StateName(s))
  }

  /** Trigger only starts a run from these states. */
  predicate CanTrigger(s: State) {
    s == Idle || s == Preview
  }

  // ---------------------------------------------------------------- pure parts of a run

  /** The countdown length: the configured seconds, 3 when that is below 1. */
  function CountdownLength(configured: int): (s: int)
    ensures s >= 1
    ensures configured >= 1 ==> s == configured
    ensures configured < 1 ==> s == 3
  {
    if configured < 1 then 3 else configured
  }

  /** When the camera fires, in milliseconds after the countdown starts: max(0, seconds * 1000 + delay). */
  function TriggerOffset(seconds: int, delayMs: int): (t: int)
    ensures t >= 0 && t >= seconds * 1000 + delayMs
    ensures t == 0 || t == seconds * 1000 + delayMs
  {
    var offset := seconds * 1000 + delayMs;
    if offset < 0 then 0 else offset
  }

  /** The capture goroutine sleeps first exactly when the offset is positive, that is when delay > -seconds * 1000. */
  lemma NoSleepAtZeroOffset(seconds: int, delayMs: int)
    ensures TriggerOffset(seconds, delayMs) > 0 <==> delayMs > -seconds * 1000
  {
  }

  /** The strategy the run selects: the album's stored method unless missing or empty, else "C". */
  function RunStrategy(b: Config.BoothConfig): (m: string)
    ensures m != ""
    ensures m == "C" || Config.Lookup(b.albumCaptureMethods, b.currentAlbum) == Some(m)
    ensures Config.Lookup(b.albumCaptureMethods, b.currentAlbum).Some? && Config.Lookup(b.albumCaptureMethods, b.currentAlbum).value != "" ==>
      m == Config.Lookup(b.albumCaptureMethods, b.currentAlbum).value
  {
    var stored := Config.Lookup(b.albumCaptureMethods, b.currentAlbum);
    if stored.Some? && stored.value != "" then stored.value else "C"
  }

  /** The method ListAlbums reports for an album: the stored value whenever present, else "C". */
  function ListedStrategy(b: Config.BoothConfig, id: string): (m: string)
    ensures Config.Lookup(b.albumCaptureMethods, id).Some? ==> m == Config.Lookup(b.albumCaptureMethods, id).value
    ensures Config.Lookup(b.albumCaptureMethods, id).None? ==> m == "C"
  {
    var stored := Config.Lookup(b.albumCaptureMethods, id);
    if stored.Some? then stored.value else "C"
  }

  /** The two agree for the current album except when its stored method is the empty string. */
  lemma StrategiesAgree(b: Config.BoothConfig)
    ensures RunStrategy(b) == ListedStrategy(b, b.currentAlbum) <==>
      Config.Lookup(b.albumCaptureMethods, b.currentAlbum) != Some("")
  {
  }

  /** The events of the countdown loop once it has gone from total down to i + 1: remaining total, ..., i + 1. */
  function CountdownTicks(total: nat, i: nat): seq<Events.Event>
    decreases total - i
  {
    if i >= total then [] else CountdownTicks(total, i + 1) + [Events.CountdownEvent(i + 1, total)]
  }

  /** The full loop announces remaining = total, total - 1, ..., 1, each with the same total. */
  lemma {:induction false} CountdownTicksShape(total: nat, i: nat)
    ensures |CountdownTicks(total, i)| == if i >= total then 0 else total - i
    ensures forall k :: 0 <= k < |CountdownTicks(total, i)| ==> CountdownTicks(total, i)[k] == Events.CountdownEvent(total - k, total)
    decreases total - i
  {
    if i < total {
      CountdownTicksShape(total, i + 1);
    }
  }

  /** GetUptime from the whole seconds since start: "MM:SS", or "HH:MM:SS" from the first hour on. */
  function FormatUptime(elapsed: nat): string {
    var hours := elapsed / 3600;
    var minutes := (elapsed / 60) % 60;
    var seconds := elapsed % 60;
    if hours > 0 then ZeroPad(hours, 2) + ":" + ZeroPad(minutes, 2) + ":" + ZeroPad(seconds, 2)
    else ZeroPad(minutes, 2) + ":" + ZeroPad(seconds, 2)
  }

  /** Below an hour the uptime reads back as minutes and seconds. */
  lemma UptimeShortReadsBack(elapsed: nat)
    requires elapsed < 3600
    ensures var r := FormatUptime(elapsed);
      && |r| == 5 && r[2] == ':' && AllDigits(r[..2]) && AllDigits(r[3..])
      && DigitsValue(r[..2]) < 60 && DigitsValue(r[3..]) < 60
      && DigitsValue(r[..2]) * 60 + DigitsValue(r[3..]) == elapsed
  {
    var m, s := (elapsed / 60) % 60, elapsed % 60;
    assert Pow10(2) == 100;
    PadBack(m, 2);
    PadBack(s, 2);
    ThreeParts(ZeroPad(m, 2), ":", ZeroPad(s, 2));
  }

  /** hours, minutes and seconds recombine to the elapsed seconds. */
  lemma UptimeArith(elapsed: nat)
    ensures (elapsed / 3600) * 3600 + ((elapsed / 60) % 60) * 60 + elapsed % 60 == elapsed
  {
    var q, m, s := elapsed / 60, (elapsed / 60) % 60, elapsed % 60;
    assert elapsed == q * 60 + s;
    assert q == (q / 60) * 60 + m;
    assert elapsed == (q / 60) * 3600 + (m * 60 + s);
    assert 0 <= m * 60 + s < 3600;
  }

  /** The three fields of a long uptime string, read from its end. */
  lemma ClockFields(hs: string, ms: string, ss: string)
    requires |ms| == 2 && |ss| == 2
    ensures var r := hs + ":" + ms + ":" + ss;
      && |r| == |hs| + 6 && r[|r| - 6] == ':' && r[|r| - 3] == ':'
      && r[..|r| - 6] == hs && r[|r| - 5..|r| - 3] == ms && r[|r| - 2..] == ss
  {
    var r := hs + ":" + ms + ":" + ss;
    assert r == hs + (":" + ms + ":" + ss);
  }

  /** From the first hour on the uptime reads back as hours, minutes and seconds. */
  lemma UptimeLongReadsBack(elapsed: nat)
    requires elapsed >= 3600
    ensures var r := FormatUptime(elapsed);
      && |r| >= 8 && r[|r| - 6] == ':' && r[|r| - 3] == ':'
      && AllDigits(r[..|r| - 6]) && AllDigits(r[|r| - 5..|r| - 3]) && AllDigits(r[|r| - 2..])
      && DigitsValue(r[|r| - 5..|r| - 3]) < 60 && DigitsValue(r[|r| - 2..]) < 60
      && DigitsValue(r[..|r| - 6]) * 3600 + DigitsValue(r[|r| - 5..|r| - 3]) * 60 + DigitsValue(r[|r| - 2..]) == elapsed
  {
    var h, m, s := elapsed / 3600, (elapsed / 60) % 60, elapsed % 60;
    assert Pow10(2) == 100;
    PadBack(m, 2);
    PadBack(s, 2);
    ZeroPadValue(h, 2);
    ClockFields(ZeroPad(h, 2), ZeroPad(m, 2), ZeroPad(s, 2));
    UptimeArith(elapsed);
  }

  // ---------------------------------------------------------------- albums

  /** The display name SetAlbum records for id: an existing non-empty one when only the id itself was passed. */
  function DisplayNameFor(b: Config.BoothConfig, id: string, originalName: string): string {
    var existing := Config.Lookup(b.albumDisplayNames, id);
    if id == originalName && existing.Some? && existing.value != "" then existing.value else originalName
  }

  /** The Booth section once id, sanitized from originalName, is made current. */
  function SelectAlbum(b: Config.BoothConfig, id: string, originalName: string): Config.BoothConfig {
    var names := if b.albumDisplayNames.None? then map[] else b.albumDisplayNames.value;
    b.(currentAlbum := id, albumDisplayNames := Some(names[id := DisplayNameFor(b, id, originalName)]))
  }

  /** The Booth section after SetAlbum(originalName). */
  function AfterSetAlbum(b: Config.BoothConfig, originalName: string): Config.BoothConfig {
    SelectAlbum(b, Config.SanitizeAlbumName(originalName), originalName)
  }

  /**
   * Selecting an album makes id current and maps it to a display name: the
   * name given, or the stored non-empty one when the id itself was given;
   * no other display name and nothing else in the section changes.
   */
  lemma SelectAlbumEffect(b: Config.BoothConfig, id: string, originalName: string)
    ensures var r := SelectAlbum(b, id, originalName);
      && r.currentAlbum == id
      && (id != originalName ==> Config.Lookup(r.albumDisplayNames, id) == Some(originalName))
      && (id == originalName && Config.Lookup(b.albumDisplayNames, id).Some? && Config.Lookup(b.albumDisplayNames, id).value != "" ==>
            Config.Lookup(r.albumDisplayNames, id) == Config.Lookup(b.albumDisplayNames, id))
      && (id == originalName && (Config.Lookup(b.albumDisplayNames, id).None? || Config.Lookup(b.albumDisplayNames, id).value == "") ==>
            Config.Lookup(r.albumDisplayNames, id) == Some(originalName))
      && (forall k :: k != id ==> Config.Lookup(r.albumDisplayNames, k) == Config.Lookup(b.albumDisplayNames, k))
      && r.(currentAlbum := b.currentAlbum, albumDisplayNames := b.albumDisplayNames) == b
  {
  }

  /** Selecting a non-empty id a second time changes nothing. */
  lemma SelectAlbumIdempotent(b: Config.BoothConfig, id: string, originalName: string)
    requires id != ""
    ensures SelectAlbum(SelectAlbum(b, id, originalName), id, originalName) == SelectAlbum(b, id, originalName)
  {
    var b1 := SelectAlbum(b, id, originalName);
    var shown := DisplayNameFor(b, id, originalName);
    assert Config.Lookup(b1.albumDisplayNames, id) == Some(shown);
    assert shown != "" || id != originalName;
    assert DisplayNameFor(b1, id, originalName) == shown;
    var n1 := b1.albumDisplayNames.value;
    assert n1[id := shown] == n1;
  }

  /** SetAlbum twice with the same name is SetAlbum once. */
  lemma SetAlbumIdempotent(b: Config.BoothConfig, originalName: string)
    ensures AfterSetAlbum(AfterSetAlbum(b, originalName), originalName) == AfterSetAlbum(b, originalName)
  {
    Config.SanitizeIsSanitized(originalName);
    SelectAlbumIdempotent(b, Config.SanitizeAlbumName(originalName), originalName);
  }

  /** Why DeleteGallery refuses a name before removing anything, if it does. */
  function DeleteRefusal(b: Config.BoothConfig, name: string): Option<string> {
    var id := Config.SanitizeAlbumName(name);
    if id == "default" then Some("cannot delete default album")
    else if id == b.currentAlbum then Some("cannot delete active album")
    else None
  }

  /** The album just selected cannot be deleted, under any spelling that sanitizes to it. */
  lemma SelectedAlbumIsProtected(b: Config.BoothConfig, selected: string, name: string)
    requires Config.SanitizeAlbumName(name) == Config.SanitizeAlbumName(selected)
    ensures DeleteRefusal(AfterSetAlbum(b, selected), name).Some?
  {
  }

  /** The Booth section after album id was removed: its display name is gone, nothing else changes. */
  function DropAlbum(b: Config.BoothConfig, id: string): (r: Config.BoothConfig)
    ensures Config.Lookup(r.albumDisplayNames, id).None?
    ensures forall k :: k != id ==> Config.Lookup(r.albumDisplayNames, k) == Config.Lookup(b.albumDisplayNames, k)
    ensures r.(albumDisplayNames := b.albumDisplayNames) == b
  {
    if b.albumDisplayNames.None? then b
    else b.(albumDisplayNames := Some(b.albumDisplayNames.value - {id}))
  }

  /** What os.ReadDir returned for a directory. */
  datatype Listing = Entries(entries: seq<Storage.DirEntry>) | NotFound | Unreadable(message: string)

  /** The files GetGalleryCount counts: visible non-directories ending in .jpg or .jpeg, in any case. */
  predicate Counted(e: Storage.DirEntry) {
    && !e.isDir
    && !(|e.name| > 0 && e.name[0] == '.')
    && (ToLower(Ext(e.name)) == ".jpg" || ToLower(Ext(e.name)) == ".jpeg")
  }

  function GalleryCount(entries: seq<Storage.DirEntry>): nat {
    if entries == [] then 0
    else GalleryCount(entries[..|entries| - 1]) + if Counted(entries[|entries| - 1]) then 1 else 0
  }

  /** Counted by name: visible files whose lower-cased name ends in .jpg or .jpeg. */
  lemma CountedBySuffix(e: Storage.DirEntry)
    ensures Counted(e) <==>
      && !e.isDir && !(|e.name| > 0 && e.name[0] == '.')
      && (HasSuffix(ToLower(e.name), ".jpg") || HasSuffix(ToLower(e.name), ".jpeg"))
  {
    assert ".jpg" == "." + "jpg" && ".jpeg" == "." + "jpeg";
    assert Storage.LowerAlpha("jpg") && Storage.LowerAlpha("jpeg");
    Storage.ExtensionIsSuffix(e.name, "jpg");
    Storage.ExtensionIsSuffix(e.name, "jpeg");
  }

  /** Every counted file is a photo the store would list; PNGs are listed but not counted. */
  lemma CountedIsListed(e: Storage.DirEntry)
    ensures Counted(e) ==> !e.isDir && Storage.IsImage(e.name)
    ensures !e.isDir && ToLower(Ext(e.name)) == ".png" ==> Storage.IsImage(e.name) && !Counted(e)
  {
  }

  /** The count is at most the number of entries, and equal exactly when every entry is counted. */
  lemma {:induction false} GalleryCountBound(entries: seq<Storage.DirEntry>)
    ensures GalleryCount(entries) <= |entries|
    ensures GalleryCount(entries) == |entries| <==> forall i :: 0 <= i < |entries| ==> Counted(entries[i])
    decreases |entries|
  {
    if entries != [] {
      var init := entries[..|entries| - 1];
      GalleryCountBound(init);
      assert forall i :: 0 <= i < |init| ==> init[i] == entries[i];
    }
  }

  /** One row of ListAlbums. */
  datatype AlbumInfo = AlbumInfo(id: string, name: string, count: int, size: int, captureMethod: string)

  /** Top-level folders of the photo base that are not albums. */
  predicate Reserved(name: string) {
    name == "original" || name == "preview" || name == "thumb" || name == "css" || name == "js"
  }

  function InfoFor(b: Config.BoothConfig, id: string, count: int, size: int): AlbumInfo {
    var shown := Config.Lookup(b.albumDisplayNames, id);
    AlbumInfo(id, if shown.Some? then shown.value else id, count, size, ListedStrategy(b, id))
  }

  predicate IsAlbum(e: Storage.DirEntry) {
    e.isDir && !Reserved(e.name)
  }

  /** The albums of a listing, in listing order; counts and sizes are what the gallery queries return per id. */
  function AlbumsOf(entries: seq<Storage.DirEntry>, b: Config.BoothConfig, countOf: string -> int, sizeOf: string -> int): seq<AlbumInfo> {
    if entries == [] then []
    else
      var e := entries[|entries| - 1];
      var rest := AlbumsOf(entries[..|entries| - 1], b, countOf, sizeOf);
      if IsAlbum(e) then rest + [InfoFor(b, e.name, countOf(e.name), sizeOf(e.name))] else rest
  }

  /** An album is listed exactly when it comes from a non-reserved directory of the listing. */
  lemma {:induction false} AlbumsOfMembership(entries: seq<Storage.DirEntry>, b: Config.BoothConfig, countOf: string -> int, sizeOf: string -> int, a: AlbumInfo)
    ensures a in AlbumsOf(entries, b, countOf, sizeOf) <==>
      exists i :: 0 <= i < |entries| && IsAlbum(entries[i]) && a == InfoFor(b, entries[i].name, countOf(entries[i].name), sizeOf(entries[i].name))
    decreases |entries|
  {
    if entries != [] {
      var init := entries[..|entries| - 1];
      AlbumsOfMembership(init, b, countOf, sizeOf, a);
      if a in AlbumsOf(entries, b, countOf, sizeOf) && a !in AlbumsOf(init, b, countOf, sizeOf) {
        var j := |entries| - 1;
        assert IsAlbum(entries[j]) && a == InfoFor(b, entries[j].name, countOf(entries[j].name), sizeOf(entries[j].name));
      }
      if exists i :: 0 <= i < |entries| && IsAlbum(entries[i]) && a == InfoFor(b, entries[i].name, countOf(entries[i].name), sizeOf(entries[i].name)) {
        var i :| 0 <= i < |entries| && IsAlbum(entries[i]) && a == InfoFor(b, entries[i].name, countOf(entries[i].name), sizeOf(entries[i].name));
        if i < |entries| - 1 {
          assert init[i] == entries[i];
        }
      }
    }
  }

  // ---------------------------------------------------------------- the application

  class App {
    const cfg: Config.Config
    const store: Storage.Manager
    var state: State
    var lastPhoto: Option<Storage.Photo>
    var countdownRemaining: int
    var countdownTotal: int
    var captureSeq: nat
    /** Every event handed to the hub, in order. */
    ghost var events: seq<Events.Event>

    /** NewApp: idle, nothing captured yet. */
    constructor (cfg: Config.Config, store: Storage.Manager)
      ensures this.cfg == cfg && this.store == store
      ensures state == Idle && lastPhoto.None? && countdownRemaining == 0 && countdownTotal == 0
      ensures captureSeq == 0 && events == []
    {
      this.cfg := cfg;
      this.store := store;
      state := Idle;
      lastPhoto := None;
      countdownRemaining := 0;
      countdownTotal := 0;
      captureSeq := 0;
      events := [];
    }

    method SetState(s: State)
      modifies this`state, this`events
      ensures state == s && events == old(events) + [StatusOf(s)]
    {
      state := s;
      events := events + [StatusOf(s)];
    }

    /**
     * Trigger: refused, with nothing changed, unless idle or previewing;
     * otherwise the sequence number goes up by one, the state becomes
     * countdown and a new run is started with that number.
     */
    method Trigger() returns (run: CaptureRun?)
      modifies this`captureSeq, this`state, this`events
      ensures !CanTrigger(old(state)) ==>
        run == null && state == old(state) && captureSeq == old(captureSeq) && events == old(events)
      ensures CanTrigger(old(state)) ==>
        && run != null && fresh(run) && run.app == this && run.runSeq == captureSeq && run.phase == Created
        && captureSeq == old(captureSeq) + 1 && state == Countdown && events == old(events) + [StatusOf(Countdown)]
    {
      if state != Idle && state != Preview {
        return null;
      }
      captureSeq := captureSeq + 1;
      var current := captureSeq;
      SetState(Countdown);
      run := new CaptureRun(this, current);
    }

    /** GetAlbumDir: the current album's directory under the photo base. */
    function AlbumDir(): string
      reads cfg
    {
      JoinPath(cfg.booth.photosBasePath, Config.SanitizeAlbumName(cfg.booth.currentAlbum))
    }

    /** GetLastPhoto: the photo of the last preview, else the newest stored one (listing is what List read). */
    method GetLastPhoto(listing: Result<seq<Storage.DirEntry>, string>) returns (p: Option<Storage.Photo>)
      ensures lastPhoto.Some? ==> p == lastPhoto
      ensures lastPhoto.None? ==> (p.None? <==> listing.Failure? || Storage.Listed(listing.value) == [])
      ensures lastPhoto.None? && p.Some? ==>
        p.value in Storage.Listed(listing.value) &&
        forall q :: q in Storage.Listed(listing.value) ==> q.timestamp <= p.value.timestamp
    {
      if lastPhoto.Some? {
        return lastPhoto;
      }
      p := store.GetLatest(listing);
    }

    /**
     * SetAlbum: the sanitized name becomes current with its display name,
     * and the store reads the new album's directory. Pointing the camera at
     * it and creating its folders are outside the model.
     */
    method SetAlbum(originalName: string) returns (id: string)
      modifies cfg`booth, store`rootDir
      ensures id == Config.SanitizeAlbumName(originalName)
      ensures cfg.booth == SelectAlbum(old(cfg.booth), id, originalName)
      ensures store.rootDir == JoinPath(cfg.booth.photosBasePath, id)
    {
      id := Config.SanitizeAlbumName(originalName);
      var b := cfg.booth;
      var shown := originalName;
      if id == originalName && b.albumDisplayNames.Some? {
        if id in b.albumDisplayNames.value && b.albumDisplayNames.value[id] != "" {
          shown := b.albumDisplayNames.value[id];
        }
      }
      assert shown == DisplayNameFor(b, id, originalName);
      var names := if b.albumDisplayNames.None? then map[] else b.albumDisplayNames.value;
      cfg.booth := b.(currentAlbum := id, albumDisplayNames := Some(names[id := shown]));
      Config.SanitizeIdempotent(originalName);
      var dir := AlbumDir();
      store.SetRootDir(dir);
    }

    /**
     * DeleteGallery: "default" and the current album are refused before
     * anything is removed; otherwise the album's directory is removed
     * (removeError is what RemoveAll returned) and, on success, its display
     * name is dropped. removed is the path handed to RemoveAll.
     */
    method DeleteGallery(name: string, removeError: Option<string>) returns (err: Option<string>, removed: Option<string>)
      modifies cfg`booth
      ensures DeleteRefusal(old(cfg.booth), name).Some? ==>
        err == DeleteRefusal(old(cfg.booth), name) && removed.None? && cfg.booth == old(cfg.booth)
      ensures DeleteRefusal(old(cfg.booth), name).None? ==>
        && err == removeError
        && removed == Some(JoinPath(cfg.booth.photosBasePath, Config.SanitizeAlbumName(name)))
        && cfg.booth == if removeError.None? then DropAlbum(old(cfg.booth), Config.SanitizeAlbumName(name)) else old(cfg.booth)
    {
      var id := Config.SanitizeAlbumName(name);
      if id == "default" {
        return Some("cannot delete default album"), None;
      }
      if id == cfg.booth.currentAlbum {
        return Some("cannot delete active album"), None;
      }
      removed := Some(JoinPath(cfg.booth.photosBasePath, id));
      err := removeError;
      if err.None? {
        if cfg.booth.albumDisplayNames.Some? {
          cfg.booth := cfg.booth.(albumDisplayNames := Some(cfg.booth.albumDisplayNames.value - {id}));
        }
      }
    }

    /** GetGalleryCount over what reading the album's original/ directory returned. */
    method GetGalleryCount(listing: Listing) returns (count: int, err: Option<string>)
      ensures listing.NotFound? ==> count == 0 && err.None?
      ensures listing.Unreadable? ==> count == 0 && err == Some(listing.message)
      ensures listing.Entries? ==> count == GalleryCount(listing.entries) && err.None?
    {
      if listing.NotFound? {
        return 0, None;
      }
      if listing.Unreadable? {
        return 0, Some(listing.message);
      }
      var entries := listing.entries;
      count := 0;
      var i := 0;
      while i < |entries|
        invariant 0 <= i <= |entries|
        invariant count == GalleryCount(entries[..i])
      {
        var e := entries[i];
        assert entries[..i + 1][..i] == entries[..i];
        if !e.isDir && !(|e.name| > 0 && e.name[0] == '.') {
          var ext := ToLower(Ext(e.name));
          if ext == ".jpg" || ext == ".jpeg" {
            count := count + 1;
          }
        }
        i := i + 1;
      }
      assert entries[..i] == entries;
      err := None;
    }

    /** ListAlbums over what reading the photo base returned (None on error). */
    method ListAlbums(listing: Option<seq<Storage.DirEntry>>, countOf: string -> int, sizeOf: string -> int) returns (albums: seq<AlbumInfo>)
      ensures listing.None? ==> albums == []
      ensures listing.Some? ==> albums == AlbumsOf(listing.value, cfg.booth, countOf, sizeOf)
    {
      if listing.None? {
        return [];
      }
      var entries := listing.value;
      albums := [];
      var i := 0;
      while i < |entries|
        invariant 0 <= i <= |entries|
        invariant albums == AlbumsOf(entries[..i], cfg.booth, countOf, sizeOf)
      {
        var e := entries[i];
        assert entries[..i + 1][..i] == entries[..i];
        if e.isDir && !Reserved(e.name) {
          var shown := e.name;
          if cfg.booth.albumDisplayNames.Some? && e.name in cfg.booth.albumDisplayNames.value {
            shown := cfg.booth.albumDisplayNames.value[e.name];
          }
          var strategy := "C";
          if cfg.booth.albumCaptureMethods.Some? && e.name in cfg.booth.albumCaptureMethods.value {
            strategy := cfg.booth.albumCaptureMethods.value[e.name];
          }
          albums := albums + [AlbumInfo(e.name, shown, countOf(e.name), sizeOf(e.name), strategy)];
        }
        i := i + 1;
      }
      assert entries[..i] == entries;
    }
  }

  // ---------------------------------------------------------------- one capture run

  /**
   * Where a run of runCaptureSequence is: not begun, counting down,
   * waiting for the camera, holding the error screen, imaging (with whether
   * the preview callback has fired), or finished.
   */
  datatype Phase = Created | Started | AwaitingCapture | ErrorHold | Imaging(previewShown: bool) | Done

  /** The locals of one runCaptureSequence goroutine and how far it has got. */
  class CaptureRun {
    const app: App
    const runSeq: nat
    var phase: Phase
    var seconds: int
    var strategy: string
    var delayMs: int
    var offsetMs: int
    var filename: string

    /** What Begin established holds for the rest of the run. */
    ghost predicate Begun()
      reads this
    {
      phase != Created ==> seconds >= 1 && strategy != "" && offsetMs == TriggerOffset(seconds, delayMs)
    }

    constructor (app: App, runSeq: nat)
      ensures this.app == app && this.runSeq == runSeq && phase == Created && Begun()
    {
      this.app := app;
      this.runSeq := runSeq;
      phase := Created;
      seconds := 0;
      strategy := "";
      delayMs := 0;
      offsetMs := 0;
      filename := "";
    }

    /**
     * The set-up before the countdown: its length, the strategy, the
     * announced total and the camera's trigger offset. Telling the camera
     * the strategy and preparing it are outside the model.
     */
    method Begin()
      requires phase == Created
      modifies this`phase, this`seconds, this`strategy, this`delayMs, this`offsetMs, app`countdownTotal
      ensures Begun() && phase == Started
      ensures seconds == CountdownLength(app.cfg.booth.countdownSeconds)
      ensures strategy == RunStrategy(app.cfg.booth)
      ensures delayMs == app.cfg.booth.triggerDelayMs && offsetMs == TriggerOffset(seconds, delayMs)
      ensures app.countdownTotal == seconds
    {
      seconds := app.cfg.booth.countdownSeconds;
      if seconds < 1 {
        seconds := 3;
      }
      strategy := "C";
      var stored := app.cfg.booth.albumCaptureMethods;
      var album := app.cfg.booth.currentAlbum;
      if stored.Some? && album in stored.value && stored.value[album] != "" {
        strategy := stored.value[album];
      }
      app.countdownTotal := seconds;
      delayMs := app.cfg.booth.triggerDelayMs;
      offsetMs := seconds * 1000 + delayMs;
      if offsetMs < 0 {
        offsetMs := 0;
      }
      phase := Started;
    }

    /**
     * The visual countdown: remaining = seconds down to 1, one event each,
     * then remaining 0 with its event, then the capturing status.
     */
    method RunCountdown()
      requires Begun() && phase == Started
      modifies this`phase, app`countdownRemaining, app`events, app`state
      ensures Begun() && phase == AwaitingCapture
      ensures app.countdownRemaining == 0 && app.state == Capturing
      ensures app.events == old(app.events) + CountdownTicks(seconds, 0) + [Events.CountdownEvent(0, seconds), StatusOf(Capturing)]
    {
      var i := seconds;
      while i > 0
        invariant 0 <= i <= seconds
        invariant app.events == old(app.events) + CountdownTicks(seconds, i)
      {
        app.countdownRemaining := i;
        app.events := app.events + [Events.CountdownEvent(i, seconds)];
        i := i - 1;
      }
      app.countdownRemaining := 0;
      app.events := app.events + [Events.CountdownEvent(0, seconds)];
      app.SetState(Capturing);
      phase := AwaitingCapture;
    }

    /** The camera reported an error: the error status, then the message. */
    method CaptureFailed(message: string)
      requires Begun() && phase == AwaitingCapture
      modifies this`phase, app`state, app`events
      ensures Begun() && phase == ErrorHold && app.state == Error
      ensures app.events == old(app.events) + [StatusOf(Error), Events.ErrorEvent(message)]
    {
      app.SetState(Error);
      app.events := app.events + [Events.ErrorEvent(message)];
      phase := ErrorHold;
    }

    /** The error screen has been shown for its two seconds: back to idle, and the run ends. */
    method ErrorHoldElapsed()
      requires Begun() && phase == ErrorHold
      modifies this`phase, app`state, app`events
      ensures Begun() && phase == Done && app.state == Idle
      ensures app.events == old(app.events) + [StatusOf(Idle)]
    {
      app.SetState(Idle);
      phase := Done;
    }

    /** The camera delivered name: processing starts. */
    method CaptureSucceeded(name: string)
      requires Begun() && phase == AwaitingCapture
      modifies this`phase, this`filename, app`state, app`events
      ensures Begun() && phase == Imaging(false) && filename == name && app.state == Processing
      ensures app.events == old(app.events) + [StatusOf(Processing)]
    {
      filename := name;
      app.SetState(Processing);
      phase := Imaging(false);
    }

    /**
     * The imaging callback, at most once and only when the preview was
     * made, at clock reading now: the photo is remembered, the state becomes
     * preview and photo_ready carries the photo.
     */
    method PreviewReady(now: int)
      requires Begun() && phase == Imaging(false)
      modifies this`phase, app`lastPhoto, app`state, app`events
      ensures Begun() && phase == Imaging(true) && app.state == Preview
      ensures app.lastPhoto == Some(Storage.PhotoFor(filename, now))
      ensures app.events == old(app.events) + [StatusOf(Preview), Events.Event(Events.PhotoReady, Events.PhotoData(Storage.PhotoFor(filename, now)))]
    {
      var photo := Storage.Photo(filename, now, "/photos/preview/" + filename, "/photos/thumb/" + filename);
      app.lastPhoto := Some(photo);
      app.SetState(Preview);
      app.events := app.events + [Events.Event(Events.PhotoReady, Events.PhotoData(photo))];
      phase := Imaging(true);
    }

    /**
     * The end of the preview time: back to idle only if the app is still
     * previewing this run's photo; a later trigger, or a preview that never
     * came, leaves everything as it is.
     */
    method Finish()
      requires Begun() && phase.Imaging?
      modifies this`phase, app`state, app`events
      ensures Begun() && phase == Done
      ensures old(app.state) == Preview && app.captureSeq == runSeq ==>
        app.state == Idle && app.events == old(app.events) + [StatusOf(Idle)]
      ensures !(old(app.state) == Preview && app.captureSeq == runSeq) ==>
        app.state == old(app.state) && app.events == old(app.events)
    {
      if app.state == Preview && app.captureSeq == runSeq {
        app.state := Idle;
        app.events := app.events + [StatusOf(Idle)];
      }
      phase := Done;
    }
  }

  // ---------------------------------------------------------------- whole runs

  /** A capture error yields status error, the message, then status idle, and never a preview. */
  method ErrorPath(run: CaptureRun, message: string)
    requires run.Begun() && run.phase == AwaitingCapture
    modifies run`phase, run.app`state, run.app`events
    ensures run.phase == Done && run.app.state == Idle && run.app.lastPhoto == old(run.app.lastPhoto)
    ensures run.app.events == old(run.app.events) + [StatusOf(Error), Events.ErrorEvent(message), StatusOf(Idle)]
  {
    run.CaptureFailed(message);
    run.ErrorHoldElapsed();
  }

  /**
   * When preview generation fails the callback never fires: Finish leaves
   * the app processing, and from there every Trigger is refused.
   */
  method PreviewNeverReady(run: CaptureRun) returns (next: CaptureRun?)
    requires run.Begun() && run.phase == Imaging(false) && run.app.state == Processing
    modifies run`phase, run.app`state, run.app`events, run.app`captureSeq
    ensures next == null && run.app.state == Processing
    ensures run.app.events == old(run.app.events) && run.app.captureSeq == old(run.app.captureSeq)
  {
    run.Finish();
    next := run.app.Trigger();
  }

  /** A trigger during the preview fences off the earlier run: its Finish no longer returns to idle. */
  method RetriggerDuringPreview(run: CaptureRun) returns (next: CaptureRun?)
    requires run.Begun() && run.phase == Imaging(true) && run.app.state == Preview
    requires run.app.captureSeq == run.runSeq
    modifies run`phase, run.app`state, run.app`events, run.app`captureSeq
    ensures next != null && next.runSeq == run.runSeq + 1 && run.phase == Done
    ensures run.app.state == Countdown && run.app.events == old(run.app.events) + [StatusOf(Countdown)]
  {
    next := run.app.Trigger();
    run.Finish();
  }

  /**
   * One uninterrupted run from idle: the countdown status, the ticks
   * S..1, the zero tick, capturing, processing, preview with photo_ready,
   * and finally status idle.
   */
  method HappyPath(app: App, name: string, now: int) returns (run: CaptureRun?)
    requires app.state == Idle
    modifies app`captureSeq, app`state, app`events, app`countdownRemaining, app`countdownTotal, app`lastPhoto
    ensures run != null && app.state == Idle && app.captureSeq == old(app.captureSeq) + 1
    ensures app.lastPhoto == Some(Storage.PhotoFor(name, now))
    ensures var s := CountdownLength(app.cfg.booth.countdownSeconds);
      app.events == old(app.events) + [StatusOf(Countdown)] + CountdownTicks(s, 0)
        + [Events.CountdownEvent(0, s), StatusOf(Capturing), StatusOf(Processing), StatusOf(Preview),
           Events.Event(Events.PhotoReady, Events.PhotoData(Storage.PhotoFor(name, now))), StatusOf(Idle)]
  {
    run := app.Trigger();
    run.Begin();
    run.RunCountdown();
    run.CaptureSucceeded(name);
    run.PreviewReady(now);
    run.Finish();
  }
}
