/**
 * The booth's configuration: the four config sections, the defaults and
 * map repair performed after loading, whole-section replacement of the Booth
 * settings, and the album-name sanitiser that turns a display name into a
 * directory name.
 */
module Config {
  import opened Wrappers
  import opened Text

  // ---------------------------------------------------------------- SanitizeAlbumName

  /** The characters the regexp `[^a-z0-9\-]+` does NOT match. */
  predicate AlbumChar(c: char) {
    'a' <= c <= 'z' || '0' <= c <= '9' || c == '-'
  }

  /**
   * ReplaceAllString(`[^a-z0-9\-]+`, "_"): every maximal run of other
   * characters becomes a single '_'. inRun says the previous character
   * already belonged to such a run.
   */
  function ReplaceDisallowedRuns(s: string, inRun: bool): string {
    if s == [] then []
    else if AlbumChar(s[0]) then [s[0]] + ReplaceDisallowedRuns(s[1..], false)
    else if inRun then ReplaceDisallowedRuns(s[1..], true)
    else "_" + ReplaceDisallowedRuns(s[1..], true)
  }

  /** ReplaceAllString(`_+`, "_"). afterUnderscore says the previous character was a '_'. */
  function CollapseUnderscores(s: string, afterUnderscore: bool): string {
    if s == [] then []
    else if s[0] == '_' then
      (if afterUnderscore then CollapseUnderscores(s[1..], true) else "_" + CollapseUnderscores(s[1..], true))
    else [s[0]] + CollapseUnderscores(s[1..], false)
  }

  /** config.SanitizeAlbumName: trim, lower-case, replace, trim '_', collapse, default. */
  function SanitizeAlbumName(name: string): string {
    var lowered := ToLower(TrimSpace(name));
    var replaced := ReplaceDisallowedRuns(lowered, false);
    var trimmed := TrimChar(replaced, '_');
    var collapsed := CollapseUnderscores(trimmed, false);
    if collapsed == "" then "default" else collapsed
  }

  predicate SafeChars(s: string) {
    forall i :: 0 <= i < |s| ==> AlbumChar(s[i]) || s[i] == '_'
  }

  predicate NoDoubleUnderscore(s: string) {
    forall i :: 0 <= i < |s| - 1 ==> !(s[i] == '_' && s[i + 1] == '_')
  }

  /** The shape every sanitised album name has. */
  predicate IsSanitized(s: string) {
    && s != ""
    && SafeChars(s)
    && s[0] != '_'
    && s[|s| - 1] != '_'
    && NoDoubleUnderscore(s)
  }

  lemma {:induction false} ReplaceRunsShape(s: string, inRun: bool)
    ensures SafeChars(ReplaceDisallowedRuns(s, inRun))
    ensures NoDoubleUnderscore(ReplaceDisallowedRuns(s, inRun))
    ensures inRun ==> ReplaceDisallowedRuns(s, inRun) == [] || ReplaceDisallowedRuns(s, inRun)[0] != '_'
    decreases |s|
  {
    if s != [] {
      if AlbumChar(s[0]) {
        ReplaceRunsShape(s[1..], false);
      } else {
        ReplaceRunsShape(s[1..], true);
      }
    }
  }

  lemma SliceKeepsShape(s: string, a: nat, b: nat)
    requires a <= b <= |s|
    requires SafeChars(s) && NoDoubleUnderscore(s)
    ensures SafeChars(s[a..b]) && NoDoubleUnderscore(s[a..b])
  {
    var t := s[a..b];
    forall i | 0 <= i < |t| ensures AlbumChar(t[i]) || t[i] == '_' {
      assert t[i] == s[a + i];
    }
    forall i | 0 <= i < |t| - 1 ensures !(t[i] == '_' && t[i + 1] == '_') {
      assert t[i] == s[a + i] && t[i + 1] == s[a + i + 1];
    }
  }

  lemma {:induction false} CollapseIdentity(s: string, afterUnderscore: bool)
    requires NoDoubleUnderscore(s)
    requires afterUnderscore ==> s == [] || s[0] != '_'
    ensures CollapseUnderscores(s, afterUnderscore) == s
    decreases |s|
  {
    if s != [] {
      assert NoDoubleUnderscore(s[1..]) by {
        forall i | 0 <= i < |s[1..]| - 1 ensures !(s[1..][i] == '_' && s[1..][i + 1] == '_') {
          assert s[1..][i] == s[i + 1] && s[1..][i + 1] == s[i + 2];
        }
      }
      CollapseIdentity(s[1..], s[0] == '_');
    }
  }

  lemma {:induction false} ReplaceIdentity(s: string, inRun: bool)
    requires SafeChars(s) && NoDoubleUnderscore(s)
    requires inRun ==> s == [] || s[0] != '_'
    ensures ReplaceDisallowedRuns(s, inRun) == s
    decreases |s|
  {
    if s != [] {
      SliceKeepsShape(s, 1, |s|);
      ReplaceIdentity(s[1..], !AlbumChar(s[0]));
    }
  }

  /** Trimming '_' from both ends keeps the shape and leaves no '_' at either end. */
  lemma TrimUnderscoresShape(s: string)
    requires SafeChars(s) && NoDoubleUnderscore(s)
    ensures var t := TrimChar(s, '_');
      SafeChars(t) && NoDoubleUnderscore(t) && (t == [] || (t[0] != '_' && t[|t| - 1] != '_'))
  {
    var left := TrimLeftChar(s, '_');
    var t := TrimRightChar(left, '_');
    SliceKeepsShape(s, |s| - |left|, |s|);
    SliceKeepsShape(left, 0, |t|);
    if t != [] {
      assert t[0] == left[0];
    }
  }

  /** Every output of SanitizeAlbumName has the sanitised shape. */
  lemma SanitizeIsSanitized(name: string)
    ensures IsSanitized(SanitizeAlbumName(name))
  {
    var lowered := ToLower(TrimSpace(name));
    var replaced := ReplaceDisallowedRuns(lowered, false);
    ReplaceRunsShape(lowered, false);
    var trimmed := TrimChar(replaced, '_');
    TrimUnderscoresShape(replaced);
    CollapseIdentity(trimmed, false);
    assert SanitizeAlbumName(name) == if trimmed == "" then "default" else trimmed;
    DefaultIsSanitized();
  }

  lemma DefaultIsSanitized()
    ensures IsSanitized("default")
  {
  }

  /** Sanitising leaves an already-sanitised name exactly as it is. */
  lemma SanitizeFixesSanitized(s: string)
    requires IsSanitized(s)
    ensures SanitizeAlbumName(s) == s
  {
    forall i | 0 <= i < |s| ensures !IsSpace(s[i]) {
      assert AlbumChar(s[i]) || s[i] == '_';
    }
    TrimSpaceNoSpace(s);
    assert ToLower(s) == s;
    ReplaceIdentity(s, false);
    assert TrimChar(s, '_') == s;
    CollapseIdentity(s, false);
  }

  /** A name is its own sanitisation exactly when it has the sanitised shape. */
  lemma SanitizeFixpoint(s: string)
    ensures SanitizeAlbumName(s) == s <==> IsSanitized(s)
  {
    SanitizeIsSanitized(s);
    if IsSanitized(s) {
      SanitizeFixesSanitized(s);
    }
  }

  /** Sanitising twice is the same as sanitising once. */
  lemma SanitizeIdempotent(name: string)
    ensures SanitizeAlbumName(SanitizeAlbumName(name)) == SanitizeAlbumName(name)
  {
    SanitizeIsSanitized(name);
    SanitizeFixesSanitized(SanitizeAlbumName(name));
  }

  /** A stretch of allowed characters is copied through unchanged. */
  lemma {:induction false} ReplaceAllowedPrefix(a: string, b: string, inRun: bool)
    requires a != [] && forall i :: 0 <= i < |a| ==> AlbumChar(a[i])
    ensures ReplaceDisallowedRuns(a + b, inRun) == a + ReplaceDisallowedRuns(b, false)
    decreases |a|
  {
    assert (a + b)[1..] == a[1..] + b;
    if |a| > 1 {
      ReplaceAllowedPrefix(a[1..], b, false);
    }
  }

  /** One disallowed character opens a run, or continues the run already open. */
  lemma ReplaceDisallowedHead(c: char, b: string, inRun: bool)
    requires !AlbumChar(c)
    ensures ReplaceDisallowedRuns([c] + b, inRun) == (if inRun then "" else "_") + ReplaceDisallowedRuns(b, true)
  {
    assert ([c] + b)[1..] == b;
  }

  /** A run of disallowed characters opens one '_', or continues the run already open. */
  lemma {:induction false} ReplaceDisallowedRun(g: string, b: string, inRun: bool)
    requires g != [] && forall i :: 0 <= i < |g| ==> !AlbumChar(g[i])
    ensures ReplaceDisallowedRuns(g + b, inRun) == (if inRun then "" else "_") + ReplaceDisallowedRuns(b, true)
    decreases |g|
  {
    assert (g + b)[1..] == g[1..] + b;
    if |g| > 1 {
      ReplaceDisallowedRun(g[1..], b, true);
    }
  }

  lemma TrimOneTrailingUnderscore(a: string)
    requires a != [] && a[0] != '_' && a[|a| - 1] != '_'
    ensures TrimChar(a + "_", '_') == a
  {
    var t := a + "_";
    assert t[0] == a[0];
    assert TrimLeftChar(t, '_') == t;
    assert t[..|t| - 1] == a;
    assert TrimRightChar(a, '_') == a;
  }

  /** "Hoch Zeit!" has no white space to trim. */
  lemma HochZeitTrimmed()
    ensures TrimSpace("Hoch Zeit!") == "Hoch Zeit!"
  {
    var n := "Hoch Zeit!";
    assert !IsSpace(n[0]) && !IsSpace(n[|n| - 1]);
    TrimSpaceKeepsEdges(n);
  }

  /** Lower-cased, split where the regexp sees its runs. */
  lemma HochZeitLowered()
    ensures ToLower("Hoch Zeit!") == "hoch" + (" " + ("zeit" + "!"))
  {
  }

  lemma HochZeitReplaced()
    ensures ReplaceDisallowedRuns("hoch" + (" " + ("zeit" + "!")), false) == "hoch_zeit" + "_"
  {
    var r1 := ReplaceDisallowedRuns("!", false);
    ReplaceDisallowedHead('!', "", false);
    assert r1 == "_";
    var r2 := ReplaceDisallowedRuns("zeit" + "!", true);
    ReplaceAllowedPrefix("zeit", "!", true);
    assert r2 == "zeit" + r1;
    var r3 := ReplaceDisallowedRuns(" " + ("zeit" + "!"), false);
    ReplaceDisallowedHead(' ', "zeit" + "!", false);
    assert r3 == "_" + r2;
    ReplaceAllowedPrefix("hoch", " " + ("zeit" + "!"), false);
    assert "hoch" + r3 == "hoch_zeit" + "_";
  }

  /** The first example in the function's own documentation. */
  lemma SanitizeExampleHochZeit()
    ensures SanitizeAlbumName("Hoch Zeit!") == "hoch_zeit"
  {
    HochZeitTrimmed();
    HochZeitLowered();
    HochZeitReplaced();
    TrimOneTrailingUnderscore("hoch_zeit");
    CollapseIdentity("hoch_zeit", false);
  }

  /** "test  event" has no white space to trim at its ends. */
  lemma DoubleSpaceTrimmed()
    ensures TrimSpace("test  event") == "test  event"
  {
    var n := "test  event";
    assert !IsSpace(n[0]) && !IsSpace(n[|n| - 1]);
    TrimSpaceKeepsEdges(n);
  }

  /** Lower-cased, split where the regexp sees its runs. */
  lemma DoubleSpaceLowered()
    ensures ToLower("test  event") == "test" + ("  " + "event")
  {
  }

  lemma DoubleSpaceReplaced()
    ensures ReplaceDisallowedRuns("test" + ("  " + "event"), false) == "test" + ("_" + "event")
  {
    var e := "event";
    assert e + [] == e;
    ReplaceAllowedPrefix(e, [], true);
    ReplaceDisallowedRun("  ", e, false);
    ReplaceAllowedPrefix("test", "  " + e, false);
  }

  /** The second example: a run of two spaces becomes one '_'. */
  lemma SanitizeExampleDoubleSpace()
    ensures SanitizeAlbumName("test  event") == "test_event"
  {
    DoubleSpaceTrimmed();
    DoubleSpaceLowered();
    DoubleSpaceReplaced();
    var s := "test_event";
    assert "test" + ("_" + "event") == s;
    assert s[0] != '_' && s[|s| - 1] != '_';
    assert TrimChar(s, '_') == s;
    CollapseIdentity(s, false);
  }

  // ---------------------------------------------------------------- configuration sections

  datatype WifiConfig = WifiConfig(
    enabled: bool, ssid: string, password: string, iface: string,
    ipAddress: string, dhcpRangeStart: string, dhcpRangeEnd: string, captivePortal: bool)

  datatype CameraConfig = CameraConfig(enabled: bool, mock: bool)

  datatype ImageConfig = ImageConfig(
    previewWidth: int, previewQuality: int, thumbWidth: int, thumbQuality: int, keepOriginal: bool)

  /** The Booth section; a Go nil map is None. */
  datatype BoothConfig = BoothConfig(
    countdownSeconds: int,
    previewDisplaySeconds: int,
    triggerDelayMs: int,
    photosBasePath: string,
    currentAlbum: string,
    albumDisplayNames: Option<map<string, string>>,
    albumCaptureMethods: Option<map<string, string>>)

  datatype Sections = Sections(wifi: WifiConfig, camera: CameraConfig, image: ImageConfig, booth: BoothConfig)

  /** A key of a possibly-nil Go map; reading a nil map finds nothing. */
  function Lookup(m: Option<map<string, string>>, k: string): Option<string> {
    if m.Some? && k in m.value then Some(m.value[k]) else None
  }

  /** The values Load starts from before any file is decoded. */
  function Defaults(): Sections {
    Sections(
      WifiConfig(true, "Photobooth", "", "wlan0", "192.168.4.1", "192.168.4.10", "192.168.4.100", true),
      CameraConfig(true, false),
      ImageConfig(1024, 70, 256, 70, true),
      BoothConfig(3, 5, 0, "data/photos", "default",
        Some(map["default" := "Default"]), Some(map["default" := "C"])))
  }

  /**
   * The repair Load applies after decoding: both maps exist, display names
   * start with the default album when they had to be recreated, and the
   * default album always has a capture method ("C" when it had none).
   */
  function EnsureMaps(b: BoothConfig): (r: BoothConfig)
    ensures r.albumDisplayNames.Some? && r.albumCaptureMethods.Some?
    ensures "default" in r.albumCaptureMethods.value
    ensures Lookup(b.albumCaptureMethods, "default").Some? ==> r.albumCaptureMethods == b.albumCaptureMethods
    ensures Lookup(b.albumCaptureMethods, "default").None? ==> r.albumCaptureMethods.value["default"] == "C"
    ensures forall k :: k != "default" ==> Lookup(r.albumCaptureMethods, k) == Lookup(b.albumCaptureMethods, k)
    ensures b.albumDisplayNames.Some? ==> r.albumDisplayNames == b.albumDisplayNames
    ensures b.albumDisplayNames.None? ==> r.albumDisplayNames == Some(map["default" := "Default"])
    ensures r.(albumDisplayNames := b.albumDisplayNames, albumCaptureMethods := b.albumCaptureMethods) == b
  {
    var names := if b.albumDisplayNames.None? then Some(map["default" := "Default"]) else b.albumDisplayNames;
    var methods := if b.albumCaptureMethods.None? then map[] else b.albumCaptureMethods.value;
    var methods' := if "default" !in methods then methods["default" := "C"] else methods;
    b.(albumDisplayNames := names, albumCaptureMethods := Some(methods'))
  }

  const ServerConfPaths: seq<string> := ["../config/server.conf.json", "config/server.conf.json", "server.conf.json"]
  const UserConfPaths: seq<string> := ["../config/user.conf.json", "config/user.conf.json", "user.conf.json"]

  /**
   * Where Save writes when no user file was found: user.conf.json beside the
   * server file that was found (filepath.Join of its directory, which for
   * "server.conf.json" is "." and cleans away), else in the working directory.
   */
  function FallbackUserPath(serverFound: Option<nat>): string
    requires serverFound.Some? ==> serverFound.value < |ServerConfPaths|
  {
    if serverFound.None? then "user.conf.json"
    else ["../config/user.conf.json", "config/user.conf.json", "user.conf.json"][serverFound.value]
  }

  class Config {
    var wifi: WifiConfig
    var camera: CameraConfig
    var image: ImageConfig
    var booth: BoothConfig
    var filePath: string

    /**
     * config.Load. Reading and decoding the files is outside the model:
     * decoded is what decoding the first server file and then the first user
     * file found (by index into the path lists) left in the defaults.
     */
    constructor Load(decoded: Sections, serverFound: Option<nat>, userFound: Option<nat>)
      requires serverFound.Some? ==> serverFound.value < |ServerConfPaths|
      requires userFound.Some? ==> userFound.value < |UserConfPaths|
      requires serverFound.None? && userFound.None? ==> decoded == Defaults()
      ensures wifi == decoded.wifi && camera == decoded.camera && image == decoded.image
      ensures booth == EnsureMaps(decoded.booth)
      ensures filePath == if userFound.Some? then UserConfPaths[userFound.value] else FallbackUserPath(serverFound)
    {
      wifi := decoded.wifi;
      camera := decoded.camera;
      image := decoded.image;
      filePath := if userFound.Some? then UserConfPaths[userFound.value] else FallbackUserPath(serverFound);
      booth := EnsureMaps(decoded.booth);
    }

    /** Config.UpdateBooth: the whole Booth section is replaced, nothing else. */
    method UpdateBooth(b: BoothConfig)
      modifies this`booth
      ensures booth == b
      ensures wifi == old(wifi) && camera == old(camera) && image == old(image) && filePath == old(filePath)
    {
      booth := b;
    }
  }
}
