/**
 * The properties panel (components/editor/PropertiesPanel.tsx): the layer
 * list with its visibility, lock and delete operations keyed by layer id,
 * and the page settings with the journal preset catalogue and the custom
 * size setters. The list operations are functions on values; the panel
 * class stores their results in its state fields.
 */
module PropertiesPanel {
  import opened Wrappers
  import opened Sequences

  datatype LayerKind = Text | Shape | Calendar | Habit | Mood | Grid

  datatype Layer = Layer(id: string, name: string, kind: LayerKind, visible: bool, locked: bool)

  datatype Orientation = Portrait | Landscape

  /** Sizes in millimetres. */
  datatype PageSettings = PageSettings(preset: string, width: real, height: real, dotSpacing: real,
                                       dotSize: real, orientation: Orientation)

  datatype JournalPreset = JournalPreset(id: string, name: string, width: real, height: real, dotSpacing: real)

  const JournalPresets: seq<JournalPreset> := [
    JournalPreset("leuchtturm", "Leuchtturm1917", 145.0, 210.0, 5.0),
    JournalPreset("scribbles", "Scribbles That Matter", 145.0, 210.0, 5.0),
    JournalPreset("rhodia", "Rhodia Webnotebook", 148.0, 210.0, 5.0),
    JournalPreset("moleskine", "Moleskine Classic", 130.0, 210.0, 5.0),
    JournalPreset("custom", "Custom Size", 148.0, 210.0, 5.0)
  ]

  const DefaultSettings: PageSettings := PageSettings("leuchtturm", 145.0, 210.0, 5.0, 1.0, Portrait)

  /** The demonstration layers the panel starts with. */
  const SampleLayers: seq<Layer> := [
    Layer("1", "Monthly Calendar", Calendar, true, false),
    Layer("2", "Habit Tracker", Habit, true, false),
    Layer("3", "Mood Tracker", Mood, true, false),
    Layer("4", "Title Text", Text, true, false),
    Layer("5", "Border Frame", Shape, true, true)
  ]

  /** toggleLayerVisibility: flips `visible` exactly on the layers with this id; order, length and every other field stay. */
  function ToggledVisibility(layers: seq<Layer>, id: string): (r: seq<Layer>)
    ensures |r| == |layers|
    ensures forall i :: 0 <= i < |layers| ==>
              && r[i].visible == (layers[i].visible != (layers[i].id == id))
              && r[i].(visible := layers[i].visible) == layers[i]
  {
    Map(layers, (l: Layer) => if l.id == id then l.(visible := !l.visible) else l)
  }

  /** toggleLayerLock: flips `locked` exactly on the layers with this id; order, length and every other field stay. */
  function ToggledLock(layers: seq<Layer>, id: string): (r: seq<Layer>)
    ensures |r| == |layers|
    ensures forall i :: 0 <= i < |layers| ==>
              && r[i].locked == (layers[i].locked != (layers[i].id == id))
              && r[i].(locked := layers[i].locked) == layers[i]
  {
    Map(layers, (l: Layer) => if l.id == id then l.(locked := !l.locked) else l)
  }

  lemma VisibilityToggleTwiceRestores(layers: seq<Layer>, id: string)
    ensures ToggledVisibility(ToggledVisibility(layers, id), id) == layers
  {
    var once := ToggledVisibility(layers, id);
    var twice := ToggledVisibility(once, id);
    assert forall i :: 0 <= i < |layers| ==> twice[i] == layers[i];
  }

  lemma LockToggleTwiceRestores(layers: seq<Layer>, id: string)
    ensures ToggledLock(ToggledLock(layers, id), id) == layers
  {
    var once := ToggledLock(layers, id);
    var twice := ToggledLock(once, id);
    assert forall i :: 0 <= i < |layers| ==> twice[i] == layers[i];
  }

  /**
   * deleteLayer: every layer with this id goes, every other layer stays
   * (with its multiplicity) in its original order.
   */
  function WithoutLayer(layers: seq<Layer>, id: string): (r: seq<Layer>)
    ensures IsSubsequence(r, layers)
    ensures forall l :: l in r <==> l in layers && l.id != id
    ensures forall l :: multiset(r)[l] == if l.id == id then 0 else multiset(layers)[l]
  {
    FilterCounts(layers, (l: Layer) => l.id != id);
    Filter(layers, (l: Layer) => l.id != id)
  }

  /** Entry i of `presets` has this id and no entry before it has. */
  ghost predicate FirstMatchAt(presets: seq<JournalPreset>, presetId: string, i: int)
  {
    0 <= i < |presets| && presets[i].id == presetId && forall k :: 0 <= k < i ==> presets[k].id != presetId
  }

  /** The catalogue lookup of handlePresetChange: the first entry with this id, if any. */
  function FindPreset(presets: seq<JournalPreset>, presetId: string): (r: Option<JournalPreset>)
    ensures r.None? <==> forall k :: 0 <= k < |presets| ==> presets[k].id != presetId
    ensures r.Some? ==> exists i :: FirstMatchAt(presets, presetId, i) && presets[i] == r.value
  {
    if presets == [] then None
    else if presets[0].id == presetId then
      assert FirstMatchAt(presets, presetId, 0);
      Some(presets[0])
    else
      var r := FindPreset(presets[1..], presetId);
      assert forall k :: 1 <= k < |presets| ==> presets[k] == presets[1..][k - 1];
      if r.Some? then
        FirstMatchShifts(presets, presetId, r.value);
        r
      else r
  }

  /** A first match in the tail is a first match in the whole list when the head does not match. */
  lemma FirstMatchShifts(presets: seq<JournalPreset>, presetId: string, p: JournalPreset)
    requires presets != [] && presets[0].id != presetId
    requires exists i :: FirstMatchAt(presets[1..], presetId, i) && presets[1..][i] == p
    ensures exists i :: FirstMatchAt(presets, presetId, i) && presets[i] == p
  {
    var i :| FirstMatchAt(presets[1..], presetId, i) && presets[1..][i] == p;
    forall k | 0 <= k < i + 1
      ensures presets[k].id != presetId
    {
      if 0 < k {
        assert presets[k] == presets[1..][k - 1];
      }
    }
    assert FirstMatchAt(presets, presetId, i + 1);
  }

  /** No two catalogue entries share an id, so the first match is the only one. */
  lemma PresetIdsAreUnique()
    ensures forall k, k' :: 0 <= k < k' < |JournalPresets| ==> JournalPresets[k].id != JournalPresets[k'].id
  {
  }

  /**
   * handlePresetChange: an unknown id changes nothing (None); a known one
   * takes preset, width, height and dot spacing from its catalogue entry and
   * keeps dot size and orientation.
   */
  function PresetChange(settings: PageSettings, presetId: string): (r: Option<PageSettings>)
    ensures r.None? <==> forall k :: 0 <= k < |JournalPresets| ==> JournalPresets[k].id != presetId
    ensures r.Some? ==>
              && r.value.preset == presetId
              && r.value.dotSize == settings.dotSize && r.value.orientation == settings.orientation
              && exists p :: p in JournalPresets && p.id == presetId
                             && r.value.width == p.width && r.value.height == p.height
                             && r.value.dotSpacing == p.dotSpacing
  {
    var preset := FindPreset(JournalPresets, presetId);
    if preset.None? then None
    else Some(settings.(preset := presetId, width := preset.value.width, height := preset.value.height,
                        dotSpacing := preset.value.dotSpacing))
  }

  /** Choosing the custom preset from the defaults gives a 148 x 210 page with 5 mm dots, dot size 1. */
  lemma CustomPresetFromDefaults()
    ensures PresetChange(DefaultSettings, "custom")
         == Some(PageSettings("custom", 148.0, 210.0, 5.0, 1.0, Portrait))
  {
    assert JournalPresets[4].id == "custom";
    assert FindPreset(JournalPresets, "custom") == Some(JournalPresets[4]) by {
      PresetIdsAreUnique();
    }
  }

  /** The panel component with its state fields. */
  class Panel {
    var pageSettings: PageSettings
    var layers: seq<Layer>

    constructor ()
      ensures pageSettings == DefaultSettings && layers == SampleLayers
    {
      pageSettings := DefaultSettings;
      layers := SampleLayers;
    }

    method ToggleLayerVisibility(id: string)
      modifies this`layers
      ensures layers == ToggledVisibility(old(layers), id)
    {
      layers := ToggledVisibility(layers, id);
    }

    method ToggleLayerLock(id: string)
      modifies this`layers
      ensures layers == ToggledLock(old(layers), id)
    {
      layers := ToggledLock(layers, id);
    }

    method DeleteLayer(id: string)
      modifies this`layers
      ensures layers == WithoutLayer(old(layers), id)
    {
      layers := WithoutLayer(layers, id);
    }

    /** Returns the settings passed to the change callback, which fires only when the preset is known. */
    method HandlePresetChange(presetId: string) returns (notified: Option<PageSettings>)
      modifies this`pageSettings
      ensures notified == PresetChange(old(pageSettings), presetId)
      ensures pageSettings == if notified.Some? then notified.value else old(pageSettings)
    {
      notified := PresetChange(pageSettings, presetId);
      if notified.Some? {
        pageSettings := notified.value;
      }
    }

    /** The custom-size inputs store the number as entered: their min and max are hints, not checks. */
    method SetWidth(width: real)
      modifies this`pageSettings
      ensures pageSettings == old(pageSettings).(width := width)
    {
      pageSettings := pageSettings.(width := width);
    }

    method SetHeight(height: real)
      modifies this`pageSettings
      ensures pageSettings == old(pageSettings).(height := height)
    {
      pageSettings := pageSettings.(height := height);
    }

    method SetDotSpacing(dotSpacing: real)
      modifies this`pageSettings
      ensures pageSettings == old(pageSettings).(dotSpacing := dotSpacing)
    {
      pageSettings := pageSettings.(dotSpacing := dotSpacing);
    }

    method SetDotSize(dotSize: real)
      modifies this`pageSettings
      ensures pageSettings == old(pageSettings).(dotSize := dotSize)
    {
      pageSettings := pageSettings.(dotSize := dotSize);
    }

    method SetOrientation(orientation: Orientation)
      modifies this`pageSettings
      ensures pageSettings == old(pageSettings).(orientation := orientation)
    {
      pageSettings := pageSettings.(orientation := orientation);
    }
  }
}
