/** web-interface/js/settings.js: the `SettingsManager` that keeps the
    request options as a key/value map, loads it from and saves it to
    storage, and shows a settings dialog. Storage is the raw text last saved
    plus a parser given as a parameter; the dialog's form is a list of
    fields. */
module Settings {
  import opened Wrappers
  import opened Strings
  import opened Responses

  type SettingsMap = map<string, JsValue>

  /** `CONFIG.DEFAULT_OPTIONS`, which config.js does not define: spreading
      `undefined` gives the empty object. */
  const ConfigDefaults: SettingsMap := map[]

  /** The per-key option lists of `CONFIG.OPTION_LABELS` (value, label), or
      `None` when the table is `undefined`, as it is in config.js. */
  type LabelTable = Option<map<string, seq<(string, string)>>>

  const ConfigLabels: LabelTable := None

  // ---------------------------------------------------------------------
  // loadSettings

  /** `loadSettings()`: the defaults, overridden key by key by the saved map
      when there is saved text and it parses (`parse` returns `None` where
      `JSON.parse` throws). */
  function LoadSettings(defaults: SettingsMap, saved: Option<string>, parse: string -> Option<SettingsMap>): (r: SettingsMap)
    ensures !Truthy(saved) || parse(saved.value).None? ==> r == defaults
    ensures Truthy(saved) && parse(saved.value).Some? ==>
              && r.Keys == defaults.Keys + parse(saved.value).value.Keys
              && (forall k :: k in parse(saved.value).value ==> r[k] == parse(saved.value).value[k])
              && (forall k :: k in defaults && k !in parse(saved.value).value ==> r[k] == defaults[k])
  {
    if Truthy(saved) && parse(saved.value).Some? then defaults + parse(saved.value).value else defaults
  }

  /** With the defaults of config.js, what is loaded is exactly what was
      saved, or nothing. */
  lemma LoadedFromConfig(saved: Option<string>, parse: string -> Option<SettingsMap>)
    ensures LoadSettings(ConfigDefaults, saved, parse) ==
              if Truthy(saved) && parse(saved.value).Some? then parse(saved.value).value else map[]
  {
    if Truthy(saved) && parse(saved.value).Some? {
      var m := parse(saved.value).value;
      assert ConfigDefaults + m == m;
    }
  }

  // ---------------------------------------------------------------------
  // saveCurrentSettings

  /** A select or text field of the dialog: its `id` and `value`. */
  datatype TextField = TextField(id: string, value: string)

  /** A checkbox of the dialog: its `id` and `checked` state. */
  datatype Checkbox = Checkbox(id: string, checked: bool)

  /** The first loop of `saveCurrentSettings`: non-empty values are written. */
  function ApplyTexts(m: SettingsMap, fields: seq<TextField>): SettingsMap {
    if fields == [] then m
    else
      var before := ApplyTexts(m, fields[..|fields| - 1]);
      var f := fields[|fields| - 1];
      if f.value != "" then before[f.id := Str(f.value)] else before
  }

  /** The second loop: every checkbox is written. */
  function ApplyBoxes(m: SettingsMap, boxes: seq<Checkbox>): SettingsMap {
    if boxes == [] then m
    else
      var before := ApplyBoxes(m, boxes[..|boxes| - 1]);
      before[boxes[|boxes| - 1].id := Bool(boxes[|boxes| - 1].checked)]
  }

  /** The settings `saveCurrentSettings` leaves behind. */
  function SaveForm(m: SettingsMap, fields: seq<TextField>, boxes: seq<Checkbox>): SettingsMap {
    ApplyBoxes(ApplyTexts(m, fields), boxes)
  }

  predicate DistinctTextIds(fields: seq<TextField>) {
    forall j, k :: 0 <= j < k < |fields| ==> fields[j].id != fields[k].id
  }

  predicate DistinctBoxIds(boxes: seq<Checkbox>) {
    forall j, k :: 0 <= j < k < |boxes| ==> boxes[j].id != boxes[k].id
  }

  /** A text field with a non-empty value sets its key; an empty one leaves
      the key as it was; keys of no field are untouched. */
  lemma {:induction false} TextsWritten(m: SettingsMap, fields: seq<TextField>)
    requires DistinctTextIds(fields)
    ensures forall j :: 0 <= j < |fields| && fields[j].value != "" ==>
              fields[j].id in ApplyTexts(m, fields) && ApplyTexts(m, fields)[fields[j].id] == Str(fields[j].value)
    ensures forall j :: 0 <= j < |fields| && fields[j].value == "" ==>
              (fields[j].id in ApplyTexts(m, fields) <==> fields[j].id in m)
              && (fields[j].id in m ==> ApplyTexts(m, fields)[fields[j].id] == m[fields[j].id])
    ensures forall id :: (forall j :: 0 <= j < |fields| ==> fields[j].id != id) ==>
              (id in ApplyTexts(m, fields) <==> id in m) && (id in m ==> ApplyTexts(m, fields)[id] == m[id])
  {
    if fields != [] {
      var prefix := fields[..|fields| - 1];
      assert DistinctTextIds(prefix);
      TextsWritten(m, prefix);
      forall j | 0 <= j < |prefix| ensures prefix[j] == fields[j] && prefix[j].id != fields[|fields| - 1].id {
      }
    }
  }

  /** Every checkbox sets its key to its state; keys of no checkbox keep
      what the text fields left. */
  lemma {:induction false} BoxesWritten(m: SettingsMap, boxes: seq<Checkbox>)
    requires DistinctBoxIds(boxes)
    ensures forall j :: 0 <= j < |boxes| ==>
              boxes[j].id in ApplyBoxes(m, boxes) && ApplyBoxes(m, boxes)[boxes[j].id] == Bool(boxes[j].checked)
    ensures forall id :: (forall j :: 0 <= j < |boxes| ==> boxes[j].id != id) ==>
              (id in ApplyBoxes(m, boxes) <==> id in m) && (id in m ==> ApplyBoxes(m, boxes)[id] == m[id])
  {
    if boxes != [] {
      var prefix := boxes[..|boxes| - 1];
      assert DistinctBoxIds(prefix);
      BoxesWritten(m, prefix);
      forall j | 0 <= j < |prefix| ensures prefix[j] == boxes[j] && prefix[j].id != boxes[|boxes| - 1].id {
      }
    }
  }

  // ---------------------------------------------------------------------
  // createOptions and the dialog

  /** One `<option>` of a select: its value, whether it is selected and its
      label. */
  datatype OptionTag = OptionTag(value: string, selected: bool, text: string)

  /** The `TypeError` of reading a key of the `undefined` label table. */
  function LabelTableError(key: string): string {
    "Cannot read properties of undefined (reading '" + key + "')"
  }

  function OptionTags(entries: seq<(string, string)>, current: Option<JsValue>): (r: seq<OptionTag>)
    ensures |r| == |entries|
    ensures forall k :: 0 <= k < |r| ==>
              r[k] == OptionTag(entries[k].0, current == Some(Str(entries[k].0)), entries[k].1)
  {
    if entries == [] then []
    else [OptionTag(entries[0].0, current == Some(Str(entries[0].0)), entries[0].1)] + OptionTags(entries[1..], current)
  }

  /** `createOptions(key)`: throws when there is no label table, is empty when
      the table has no entry for the key, and otherwise lists the entries
      with the current value selected. */
  function CreateOptions(labels: LabelTable, settings: SettingsMap, key: string): (r: Result<seq<OptionTag>, string>)
    ensures labels.None? <==> r.Err?
    ensures r.Err? ==> r.error == LabelTableError(key)
    ensures labels.Some? && key !in labels.value ==> r == Ok([])
    ensures labels.Some? && key in labels.value ==> r.Ok? && |r.value| == |labels.value[key]|
    ensures labels.Some? && key in labels.value ==>
              forall k :: 0 <= k < |labels.value[key]| ==>
                && r.value[k].value == labels.value[key][k].0
                && r.value[k].text == labels.value[key][k].1
                && (r.value[k].selected <==> key in settings && settings[key] == Str(labels.value[key][k].0))
  {
    match labels
    case None => Err(LabelTableError(key))
    case Some(table) =>
      if key !in table then Ok([])
      else Ok(OptionTags(table[key], if key in settings then Some(settings[key]) else None))
  }

  /** The first key whose options the dialog's template asks for. */
  const FirstOptionKey: string := "videoQuality"

  /** `toggleSettings()` on the `isVisible` flag: hiding always works when a
      dialog element exists; showing renders the dialog first, which throws
      without a label table, before `isVisible` is set. */
  function ToggleSpec(isVisible: bool, modalPresent: bool, labels: LabelTable): (r: (bool, Option<string>))
    ensures isVisible ==> r == (!modalPresent, None)
    ensures !isVisible && modalPresent && labels.None? ==> r == (false, Some(LabelTableError(FirstOptionKey)))
    ensures !isVisible && (!modalPresent || labels.Some?) ==> r == (modalPresent, None)
  {
    if isVisible then (!modalPresent, None)
    else if !modalPresent then (false, None)
    else match CreateOptions(labels, map[], FirstOptionKey)
      case Err(m) => (false, Some(m))
      case Ok(_) => (true, None)
  }

  /** With config.js as it is, the dialog never opens. */
  lemma NeverShownWithConfig(isVisible: bool, modalPresent: bool)
    requires !isVisible
    ensures !ToggleSpec(isVisible, modalPresent, ConfigLabels).0
  {
  }

  /** With a label table and a dialog element, toggling flips the flag, and
      toggling twice restores it. */
  lemma ToggleFlips(isVisible: bool, labels: LabelTable)
    requires labels.Some?
    ensures ToggleSpec(isVisible, true, labels) == (!isVisible, None)
    ensures ToggleSpec(ToggleSpec(isVisible, true, labels).0, true, labels).0 == isVisible
  {
  }

  // ---------------------------------------------------------------------
  // The manager

  class SettingsManager {
    var settings: SettingsMap
    var isVisible: bool
    /** What `saveSettings` last wrote to storage. */
    var persisted: Option<SettingsMap>
    const defaults: SettingsMap
    const labels: LabelTable

    /** `new SettingsManager()` over the defaults, the label table and what
        storage holds. */
    constructor(defaults: SettingsMap, labels: LabelTable, saved: Option<string>, parse: string -> Option<SettingsMap>)
      ensures this.defaults == defaults && this.labels == labels
      ensures settings == LoadSettings(defaults, saved, parse) && !isVisible && persisted == None
    {
      this.defaults := defaults;
      this.labels := labels;
      settings := LoadSettings(defaults, saved, parse);
      isVisible := false;
      persisted := None;
    }

    /** `getSettings()`: a copy, so the caller cannot change the manager's
        map through it. */
    method GetSettings() returns (copy: SettingsMap)
      ensures copy == settings
    {
      copy := settings;
    }

    /** `updateSetting(key, value)`: one key changes, then the map is
        saved. */
    method UpdateSetting(key: string, value: JsValue)
      modifies this
      ensures settings == old(settings)[key := value]
      ensures persisted == Some(settings) && isVisible == old(isVisible)
    {
      settings := settings[key := value];
      persisted := Some(settings);
    }

    /** `resetSettings()`: back to the defaults, then saved. */
    method ResetSettings()
      modifies this
      ensures settings == defaults && persisted == Some(defaults) && isVisible == old(isVisible)
    {
      settings := defaults;
      persisted := Some(settings);
    }

    /** `saveCurrentSettings()` for the dialog's fields; nothing happens
        when there is no dialog element. */
    method SaveCurrentSettings(modalPresent: bool, fields: seq<TextField>, boxes: seq<Checkbox>)
      modifies this
      ensures !modalPresent ==> settings == old(settings) && persisted == old(persisted)
      ensures modalPresent ==> settings == SaveForm(old(settings), fields, boxes) && persisted == Some(settings)
      ensures isVisible == old(isVisible)
    {
      if !modalPresent {
        return;
      }
      var i := 0;
      while i < |fields|
        invariant 0 <= i <= |fields|
        invariant settings == ApplyTexts(old(settings), fields[..i])
        invariant isVisible == old(isVisible)
      {
        assert fields[..i + 1][..i] == fields[..i];
        if fields[i].value != "" {
          settings := settings[fields[i].id := Str(fields[i].value)];
        }
        i := i + 1;
      }
      assert fields[..|fields|] == fields;
      var afterTexts := settings;
      i := 0;
      while i < |boxes|
        invariant 0 <= i <= |boxes|
        invariant settings == ApplyBoxes(afterTexts, boxes[..i])
        invariant isVisible == old(isVisible)
      {
        assert boxes[..i + 1][..i] == boxes[..i];
        settings := settings[boxes[i].id := Bool(boxes[i].checked)];
        i := i + 1;
      }
      assert boxes[..|boxes|] == boxes;
      persisted := Some(settings);
    }

    /** `createOptions(key)` on the current settings. */
    method CreateOptionsFor(key: string) returns (r: Result<seq<OptionTag>, string>)
      ensures r == CreateOptions(labels, settings, key)
    {
      r := CreateOptions(labels, settings, key);
    }

    /** `toggleSettings()`; `thrown` is the error showing the dialog raised. */
    method ToggleSettings(modalPresent: bool) returns (thrown: Option<string>)
      modifies this
      ensures (isVisible, thrown) == ToggleSpec(old(isVisible), modalPresent, labels)
      ensures settings == old(settings) && persisted == old(persisted)
    {
      if isVisible {
        if modalPresent {
          isVisible := false;
        }
        return None;
      }
      if !modalPresent {
        return None;
      }
      var options := CreateOptions(labels, map[], FirstOptionKey);
      if options.Err? {
        return Some(options.error);
      }
      isVisible := true;
      thrown := None;
    }
  }
}
