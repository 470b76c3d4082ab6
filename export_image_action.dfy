/** The stand-alone image export action: the same export planning as the settings panel's export
    group (counting, labels, file names, the loop that stops at a missing directory), but with the
    output directory checked for existence on disk, a file-name prefix derived from the position
    dataset from the start, and the flagged dimensions storable as per-dataset defaults. */
module ExportImageAction {
  import opened ExportAction

  /** The settings key under which the default flags of each dataset are stored. */
  const EnabledDimensionsSettingKey: string := "Export/Image/EnabledDimensions"

  /** A settings value: a boolean, a string or a list of values. */
  datatype Variant = BoolValue(value: bool) | StringValue(text: string) | ListValue(items: seq<Variant>)

  /** The key of a dataset's default flags: the common key, a slash and the dataset's name. */
  function EnabledDimensionsKey(guiName: string): (key: string)
    ensures |key| == |EnabledDimensionsSettingKey| + 1 + |guiName|
    ensures key[..|EnabledDimensionsSettingKey| + 1] == EnabledDimensionsSettingKey + "/"
    ensures key[|EnabledDimensionsSettingKey| + 1..] == guiName
  {
    EnabledDimensionsSettingKey + "/" + guiName
  }

  /** Two datasets with different names never share a key. */
  lemma EnabledDimensionsKeyInjective(a: string, b: string)
    ensures EnabledDimensionsKey(a) == EnabledDimensionsKey(b) ==> a == b
  {
    var ka, kb := EnabledDimensionsKey(a), EnabledDimensionsKey(b);
    if ka == kb {
      assert a == ka[|EnabledDimensionsSettingKey| + 1..];
      assert b == kb[|EnabledDimensionsSettingKey| + 1..];
    }
  }

  /** Reading a stored list of values back as flags: a boolean entry gives its value, anything
      else reads as not flagged. */
  function StoredFlags(items: seq<Variant>): (flags: seq<bool>)
    ensures |flags| == |items|
    ensures forall i :: 0 <= i < |items| ==> (flags[i] <==> items[i] == BoolValue(true))
  {
    seq(|items|, i requires 0 <= i < |items| => items[i] == BoolValue(true))
  }

  /** The list `setDefaultDimensions` stores: one boolean value per dimension, pushed in
      dimension order. Reading it back gives the flags it was built from. */
  method DefaultDimensionsList(flags: seq<bool>) returns (items: seq<Variant>)
    ensures |items| == |flags|
    ensures forall i :: 0 <= i < |items| ==> items[i].BoolValue?
    ensures StoredFlags(items) == flags
  {
    items := [];
    for i := 0 to |flags|
      invariant |items| == i
      invariant forall k :: 0 <= k < i ==> items[k] == BoolValue(flags[k])
    {
      items := items + [BoolValue(flags[i])];
    }
  }

  /** The image export action with the state of the controls it reads and drives. `settings`
      holds only the default-dimension flag entries of the plugin's settings; the aspect-ratio
      lock and the output-directory entries the action also writes are not modelled. */
  class Action {
    var guiName: string
    var prefix: string
    var directory: string
    var dimensionNames: seq<string>
    var enabledDimensions: seq<bool>
    var setDefaultDimensionsText: string
    var triggerText: string
    var triggerTooltip: string
    var triggerEnabled: bool
    var colorByIndex: int
    var dimensionIndex: int
    var overrideRanges: bool
    var fixedRange: Range
    var colorMapRange: Range
    var status: Status
    var message: string
    /** The default-dimension flag entries, keyed by EnabledDimensionsKey. */
    var settings: map<string, Variant>
    /** Every screenshot requested from the widget, oldest first. */
    ghost var screenshots: seq<Screenshot>
    /** Every value the export trigger's enabled flag was set to by an export, oldest first. */
    ghost var exportTriggerLog: seq<bool>

    ghost predicate Valid()
      reads this`enabledDimensions, this`dimensionNames
    {
      |enabledDimensions| == |dimensionNames|
    }

    /** Recompute the export trigger from the current state; `directoryExists` answers whether the
        output directory is on disk now. */
    method UpdateExportTrigger(directoryExists: bool)
      modifies this`triggerText, this`triggerTooltip, this`triggerEnabled
      ensures var count := CountEnabled(enabledDimensions);
              && triggerText == TriggerText(count)
              && triggerTooltip == TriggerTooltip(count)
              && (triggerEnabled <==> MayExport(prefix, directoryExists, enabledDimensions))
    {
      var count := CountEnabled(enabledDimensions);
      triggerText := TriggerText(count);
      triggerTooltip := TriggerTooltip(count);
      triggerEnabled := MayExport(prefix, directoryExists, enabledDimensions);
    }

    /** Point the dimension picker at the position dataset (or take its changed flags), refresh
        the trigger and name the dataset on the set-defaults button. */
    method UpdateDimensionsPicker(name: string, names: seq<string>, flags: seq<bool>, directoryExists: bool)
      requires |flags| == |names|
      modifies this`guiName, this`dimensionNames, this`enabledDimensions, this`setDefaultDimensionsText
      modifies this`triggerText, this`triggerTooltip, this`triggerEnabled
      ensures Valid() && guiName == name && dimensionNames == names && enabledDimensions == flags
      ensures triggerText == TriggerText(CountEnabled(flags))
      ensures triggerTooltip == TriggerTooltip(CountEnabled(flags))
      ensures triggerEnabled <==> MayExport(prefix, directoryExists, flags)
      ensures setDefaultDimensionsText == "Set default dimensions for " + name
    {
      guiName := name;
      dimensionNames := names;
      enabledDimensions := flags;
      UpdateExportTrigger(directoryExists);
      setDefaultDimensionsText := "Set default dimensions for " + name;
    }

    /** A new action for the current position dataset: the prefix is the dataset name followed by
        an underscore, the directory is the stored one, and the picker and trigger are set up. */
    constructor (name: string, names: seq<string>, flags: seq<bool>, storedDirectory: string, directoryExists: bool,
                 colorByIndex: int, dimensionIndex: int, colorMapRange: Range, settings: map<string, Variant>)
      requires |flags| == |names|
      ensures Valid()
      ensures prefix == name + "_" && directory == storedDirectory
      ensures guiName == name && dimensionNames == names && enabledDimensions == flags
      ensures triggerText == TriggerText(CountEnabled(flags))
      ensures triggerTooltip == TriggerTooltip(CountEnabled(flags))
      ensures triggerEnabled <==> MayExport(name + "_", directoryExists, flags)
      ensures setDefaultDimensionsText == "Set default dimensions for " + name
      ensures !overrideRanges && this.colorMapRange == colorMapRange && this.settings == settings
      ensures this.colorByIndex == colorByIndex && this.dimensionIndex == dimensionIndex
      ensures screenshots == [] && exportTriggerLog == []
    {
      guiName := name;
      prefix := name + "_";
      directory := storedDirectory;
      dimensionNames := names;
      enabledDimensions := flags;
      setDefaultDimensionsText := "";
      triggerText := "Export";
      triggerTooltip := "Export dimensions";
      triggerEnabled := true;
      this.colorByIndex := colorByIndex;
      this.dimensionIndex := dimensionIndex;
      overrideRanges := false;
      fixedRange := Range(0.0, 1.0);
      this.colorMapRange := colorMapRange;
      status := Info;
      message := "";
      this.settings := settings;
      screenshots := [];
      exportTriggerLog := [];
      new;
      UpdateDimensionsPicker(name, names, flags, directoryExists);
    }

    /** The prefix field was edited: store it and refresh the trigger. */
    method SetPrefix(newPrefix: string, directoryExists: bool)
      modifies this`prefix, this`triggerText, this`triggerTooltip, this`triggerEnabled
      ensures prefix == newPrefix
      ensures triggerText == TriggerText(CountEnabled(enabledDimensions))
      ensures triggerTooltip == TriggerTooltip(CountEnabled(enabledDimensions))
      ensures triggerEnabled <==> MayExport(newPrefix, directoryExists, enabledDimensions)
    {
      prefix := newPrefix;
      UpdateExportTrigger(directoryExists);
    }

    /** A directory was picked: store it and refresh the trigger. */
    method SetDirectory(newDirectory: string, directoryExists: bool)
      modifies this`directory, this`triggerText, this`triggerTooltip, this`triggerEnabled
      ensures directory == newDirectory
      ensures triggerText == TriggerText(CountEnabled(enabledDimensions))
      ensures triggerTooltip == TriggerTooltip(CountEnabled(enabledDimensions))
      ensures triggerEnabled <==> MayExport(prefix, directoryExists, enabledDimensions)
    {
      directory := newDirectory;
      UpdateExportTrigger(directoryExists);
    }

    /** Store the current flags as the defaults of the position dataset, under its own key;
        no other setting changes. */
    method SetDefaultDimensions()
      modifies this`settings
      ensures EnabledDimensionsKey(guiName) in settings
      ensures settings[EnabledDimensionsKey(guiName)].ListValue?
      ensures StoredFlags(settings[EnabledDimensionsKey(guiName)].items) == enabledDimensions
      ensures forall key :: key in old(settings) && key != EnabledDimensionsKey(guiName) ==>
                key in settings && settings[key] == old(settings)[key]
      ensures settings.Keys == old(settings).Keys + {EnabledDimensionsKey(guiName)}
    {
      var items := DefaultDimensionsList(enabledDimensions);
      settings := settings[EnabledDimensionsKey(guiName) := ListValue(items)];
    }

    /** Export the flagged dimensions as the settings panel's export does: colour by dimension,
        disable the trigger, one screenshot per flagged dimension in ascending order until the
        directory is found missing, re-enable the trigger, restore the colouring indices and
        report the count. The output directory stored in the settings is read but not used. */
    method ExportImages(directoryExists: seq<bool>)
      requires Valid() && CountEnabled(enabledDimensions) <= |directoryExists|
      modifies this`colorByIndex, this`dimensionIndex, this`triggerEnabled, this`exportTriggerLog
      modifies this`status, this`screenshots, this`colorMapRange, this`message
      ensures Valid()
      ensures colorByIndex == old(colorByIndex) && dimensionIndex == old(dimensionIndex)
      ensures exportTriggerLog == old(exportTriggerLog) + [false, true] && triggerEnabled
      ensures var flags := old(enabledDimensions);
              var n := ExportedCount(directoryExists, CountEnabled(flags));
              && screenshots == old(screenshots) + Planned(old(prefix), old(directory), old(dimensionNames), flags, 1)[..n]
              && status == (if n < CountEnabled(flags) then Error else Info)
              && message == ExportedMessage(n)
              && colorMapRange == (if old(overrideRanges) && n > 0 then old(fixedRange) else old(colorMapRange))
    {
      var cachedColorBy, cachedDimension := colorByIndex, dimensionIndex;
      // The loop reads none of the fields the export changes, so its outcome is computed first.
      var shots, exported, aborted := RunExport(prefix, directory, dimensionNames, enabledDimensions, 1, directoryExists);
      colorByIndex := 1;
      triggerEnabled, exportTriggerLog := false, exportTriggerLog + [false];
      screenshots := screenshots + shots;
      status := if aborted then Error else Info;
      colorMapRange := if overrideRanges && exported > 0 then fixedRange else colorMapRange;
      triggerEnabled, exportTriggerLog := true, exportTriggerLog + [true];
      colorByIndex, dimensionIndex := cachedColorBy, cachedDimension;
      message := ExportedMessage(exported);
    }

    /** A trigger of the export/cancel pair was pressed: the first runs the export as
        ExportImages does, the others change nothing. */
    method ExportCancelTriggered(triggerIndex: int, directoryExists: seq<bool>)
      requires Valid() && CountEnabled(enabledDimensions) <= |directoryExists|
      modifies this`colorByIndex, this`dimensionIndex, this`triggerEnabled, this`exportTriggerLog
      modifies this`status, this`screenshots, this`colorMapRange, this`message
      ensures Valid()
      ensures triggerIndex != 0 ==> unchanged(this)
      ensures colorByIndex == old(colorByIndex) && dimensionIndex == old(dimensionIndex)
      ensures triggerIndex == 0 ==> exportTriggerLog == old(exportTriggerLog) + [false, true] && triggerEnabled
      ensures triggerIndex == 0 ==>
              var flags := old(enabledDimensions);
              var n := ExportedCount(directoryExists, CountEnabled(flags));
              && screenshots == old(screenshots) + Planned(old(prefix), old(directory), old(dimensionNames), flags, 1)[..n]
              && status == (if n < CountEnabled(flags) then Error else Info)
              && message == ExportedMessage(n)
              && colorMapRange == (if old(overrideRanges) && n > 0 then old(fixedRange) else old(colorMapRange))
    {
      if triggerIndex == 0 {
        ExportImages(directoryExists);
      }
    }
  }
}
