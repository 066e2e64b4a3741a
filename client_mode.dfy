/**
 * The client-mode store: the fixed table of screen modes a client device
 * can run in, and the mode the device has picked.
 */
module ClientModeStore {
  import opened Wrappers

  datatype ClientMode = BuzzerCountdownPreview | BuzzerCountdown | CountdownPreview | PreviewOnly | CountdownOnly | Gallery

  /** The mode's id as the frontend spells it. */
  function ModeId(m: ClientMode): string {
    match m
    case BuzzerCountdownPreview => "buzzer-countdown-preview"
    case BuzzerCountdown => "buzzer-countdown"
    case CountdownPreview => "countdown-preview"
    case PreviewOnly => "preview-only"
    case CountdownOnly => "countdown-only"
    case Gallery => "gallery"
  }

  datatype ModeDefinition = ModeDefinition(
    id: ClientMode, labelText: string, description: string,
    hasBuzzer: bool, hasCountdown: bool, hasPreview: bool, hasGallery: bool)

  const Modes: seq<ModeDefinition> := [
    ModeDefinition(BuzzerCountdownPreview, "Vollständig", "Auslöser, Countdown & Vorschau", true, true, true, false),
    ModeDefinition(BuzzerCountdown, "Auslöser + Countdown", "Ohne Bildvorschau", true, true, false, false),
    ModeDefinition(CountdownPreview, "Monitor + Vorschau", "Zeigt Countdown & letztes Bild", false, true, true, false),
    ModeDefinition(PreviewOnly, "Nur Vorschau", "Zeigt nur das letzte Bild", false, false, true, false),
    ModeDefinition(CountdownOnly, "Nur Countdown", "Zeigt nur den Countdown", false, true, false, false),
    ModeDefinition(Gallery, "Galerie", "Alle Bilder durchstöbern", false, false, false, true)
  ]

  /** MODES.find(m => m.id === id): the first entry with that id. */
  function Find(modes: seq<ModeDefinition>, id: ClientMode): (r: Option<ModeDefinition>)
    ensures r.Some? ==> r.value in modes && r.value.id == id
    ensures r.None? ==> forall i :: 0 <= i < |modes| ==> modes[i].id != id
  {
    if modes == [] then None
    else if modes[0].id == id then Some(modes[0])
    else Find(modes[1..], id)
  }

  /** Six entries under distinct ids. */
  lemma ModesDistinct()
    ensures |Modes| == 6
    ensures forall i, j :: 0 <= i < j < |Modes| ==> Modes[i].id != Modes[j].id
  {
  }

  /** Every mode has its entry, and it is the only entry with that id. */
  lemma FindTotal(id: ClientMode)
    ensures Find(Modes, id).Some? && Find(Modes, id).value.id == id
    ensures forall i :: 0 <= i < |Modes| && Modes[i].id == id ==> Find(Modes, id) == Some(Modes[i])
  {
    var k := match id
      case BuzzerCountdownPreview => 0
      case BuzzerCountdown => 1
      case CountdownPreview => 2
      case PreviewOnly => 3
      case CountdownOnly => 4
      case Gallery => 5;
    assert Modes[k].id == id;
    ModesDistinct();
  }

  /** Only the gallery mode shows the gallery, and only the two buzzer modes show the buzzer. */
  lemma ModeCapabilities()
    ensures forall i :: 0 <= i < |Modes| ==> (Modes[i].hasGallery <==> Modes[i].id == Gallery)
    ensures forall i :: 0 <= i < |Modes| ==>
      (Modes[i].hasBuzzer <==> Modes[i].id == BuzzerCountdownPreview || Modes[i].id == BuzzerCountdown)
  {
  }

  /** The frontend's ids are distinct, so a mode is known by its id. */
  lemma ModeIdInjective(a: ClientMode, b: ClientMode)
    ensures ModeId(a) == ModeId(b) <==> a == b
  {
  }

  class Store {
    var selectedMode: Option<ClientMode>
    var modeDefinition: Option<ModeDefinition>

    /** Either both are set or neither is. */
    ghost predicate Valid()
      reads this
    {
      selectedMode.None? <==> modeDefinition.None?
    }

    constructor ()
      ensures Valid() && selectedMode.None? && modeDefinition.None?
    {
      selectedMode := None;
      modeDefinition := None;
    }

    method SelectMode(id: ClientMode)
      modifies this
      ensures Valid()
      ensures selectedMode == Some(id) && modeDefinition == Find(Modes, id)
      ensures modeDefinition.Some? && modeDefinition.value.id == id
    {
      selectedMode := Some(id);
      FindTotal(id);
      modeDefinition := Find(Modes, id);
    }

    method ClearMode()
      modifies this
      ensures Valid() && selectedMode.None? && modeDefinition.None?
    {
      selectedMode := None;
      modeDefinition := None;
    }
  }
}
