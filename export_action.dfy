/** The export group of the settings panel: which dimensions are flagged for export, when the
    export trigger may be pressed and what it says, the scale presets, and the export loop that
    writes one screenshot per flagged dimension, coloured by that dimension, until the output
    directory turns out to be missing. */
module ExportAction {

  /** The two states of the status line that the export reports to. */
  datatype Status = Info | Error

  /** A colour-map range as the fixed-range action holds it. */
  datatype Range = Range(min: real, max: real)

  /** One screenshot request handed to the widget: where the image goes, the dimension the plot
      is coloured by, and the colour-by index in force at that moment. */
  datatype Screenshot = Screenshot(path: string, dimensionName: string, colorByIndex: int)

  /** The number of dimensions flagged for export (`std::count_if` over the flags). */
  function CountEnabled(flags: seq<bool>): (n: nat)
    ensures n <= |flags|
    ensures n == 0 <==> forall i :: 0 <= i < |flags| ==> !flags[i]
  {
    if flags == [] then 0
    else CountEnabled(flags[..|flags| - 1]) + (if flags[|flags| - 1] then 1 else 0)
  }

  /** The flagged dimension indices in ascending order: the order in which the export loop
      visits them. */
  function EnabledIndices(flags: seq<bool>): (indices: seq<nat>)
    ensures |indices| == CountEnabled(flags)
    ensures forall k :: 0 <= k < |indices| ==> indices[k] < |flags| && flags[indices[k]]
    ensures forall k, l :: 0 <= k < l < |indices| ==> indices[k] < indices[l]
  {
    if flags == [] then []
    else
      var rest := EnabledIndices(flags[..|flags| - 1]);
      if flags[|flags| - 1] then rest + [|flags| - 1] else rest
  }

  /** Every flagged dimension is visited, and nothing else. */
  lemma {:induction false} EnabledIndicesComplete(flags: seq<bool>, i: nat)
    ensures i in EnabledIndices(flags) <==> i < |flags| && flags[i]
  {
    if flags != [] {
      var front := flags[..|flags| - 1];
      EnabledIndicesComplete(front, i);
      if i < |front| {
        assert front[i] == flags[i];
      }
    }
  }

  /** The export trigger may be pressed when there is a file-name prefix, the output directory
      is usable and at least one dimension is flagged. */
  function MayExport(prefix: string, directoryOk: bool, flags: seq<bool>): (may: bool)
    ensures may <==> prefix != "" && directoryOk && exists i :: 0 <= i < |flags| && flags[i]
  {
    prefix != "" && directoryOk && CountEnabled(flags) != 0
  }

  /** The character of a decimal digit. */
  function DigitChar(d: nat): (c: char)
    requires d < 10
    ensures '0' <= c <= '9'
    ensures c as int - '0' as int == d
  {
    ('0' as int + d) as char
  }

  predicate AllDigits(s: string) {
    forall i :: 0 <= i < |s| ==> '0' <= s[i] <= '9'
  }

  /** The value of a string of decimal digits. */
  function DigitsValue(s: string): nat
    requires AllDigits(s)
  {
    if s == [] then 0
    else DigitsValue(s[..|s| - 1]) * 10 + (s[|s| - 1] as int - '0' as int)
  }

  /** `QString::number` on a count: the decimal digits of `n`, without leading zeros. */
  function NatToString(n: nat): (s: string)
    ensures |s| >= 1 && AllDigits(s)
    ensures |s| > 1 ==> s[0] != '0'
  {
    if n < 10 then [DigitChar(n)] else NatToString(n / 10) + [DigitChar(n % 10)]
  }

  /** Reading the digits back gives the number that was written. */
  lemma {:induction false} NatToStringRoundTrip(n: nat)
    ensures DigitsValue(NatToString(n)) == n
  {
    var s := NatToString(n);
    if n < 10 {
      assert s[..0] == [];
    } else {
      NatToStringRoundTrip(n / 10);
      assert s[..|s| - 1] == NatToString(n / 10);
    }
  }

  /** Different counts are written differently. */
  lemma NatToStringInjective(a: nat, b: nat)
    ensures NatToString(a) == NatToString(b) ==> a == b
  {
    NatToStringRoundTrip(a);
    NatToStringRoundTrip(b);
  }

  /** The label of the export trigger for `count` flagged dimensions. */
  function TriggerText(count: nat): (text: string)
    ensures text == "Nothing to export" <==> count == 0
    ensures count > 0 ==> |text| >= 10 && text[..8] == "Export (" && text[|text| - 1] == ')'
  {
    if count == 0 then "Nothing to export"
    else
      var text := "Export (" + NatToString(count) + ")";
      assert text[0] == 'E' && "Nothing to export"[0] == 'N';
      text
  }

  /** The label tells the counts apart: it never shows the same text for two counts. */
  lemma TriggerTextDeterminesCount(a: nat, b: nat)
    ensures TriggerText(a) == TriggerText(b) ==> a == b
  {
    if a > 0 && b > 0 && TriggerText(a) == TriggerText(b) {
      var ta, tb := TriggerText(a), TriggerText(b);
      assert NatToString(a) == ta[8..|ta| - 1];
      assert NatToString(b) == tb[8..|tb| - 1];
      NatToStringInjective(a, b);
    }
  }

  /** The tooltip of the export trigger; the noun is plural from two images on. */
  function TriggerTooltip(count: nat): (tip: string)
    ensures tip == "There are no images selected to export" <==> count == 0
    ensures count > 0 ==> |tip| >= 22 && tip[..7] == "Export " && tip[|tip| - 8..] == " to disk"
    ensures count > 0 ==> (tip[|tip| - 9] == 's' <==> count >= 2)
  {
    if count == 0 then "There are no images selected to export"
    else
      var images := "Export " + NatToString(count) + " image" + (if count >= 2 then "s" else "");
      assert images[|images| - 1] == (if count >= 2 then 's' else 'e');
      var tip := images + " to disk";
      assert tip[|tip| - 9] == images[|images| - 1];
      assert tip[0] == 'E' && "There are no images selected to export"[0] == 'T';
      tip
  }

  /** The summary shown when the export ends; the noun is plural for more than one image. */
  function ExportedMessage(exported: nat): (message: string)
    ensures |message| >= 16 && message[..9] == "Exported "
    ensures message[|message| - 1] == 's' <==> exported > 1
  {
    var message := "Exported " + NatToString(exported) + " image" + (if exported > 1 then "s" else "");
    assert message[|message| - 1] == (if exported > 1 then 's' else 'e');
    message
  }

  /** The factors of the scale presets, in the order of the scale triggers. */
  const ScaleFactors: seq<real> := [0.125, 0.25, 0.5, 1.0, 2.0, 3.0, 4.0, 8.0]

  /** The factor a scale trigger applies to the widget size: the presets grow with the trigger
      index, the first three shrink and the fourth keeps the size. */
  function ScaleFactor(triggerIndex: nat): (factor: real)
    requires triggerIndex < |ScaleFactors|
    ensures 0.125 <= factor <= 8.0
    ensures factor < 1.0 <==> triggerIndex < 3
    ensures factor == 1.0 <==> triggerIndex == 3
    ensures forall j :: triggerIndex < j < |ScaleFactors| ==> factor < ScaleFactors[j]
  {
    ScaleFactors[triggerIndex]
  }

  /** The file name of one exported image: the prefix, the dimension name and `.png`. */
  function FileName(prefix: string, dimensionName: string): (file: string)
    ensures |file| == |prefix| + |dimensionName| + 4
    ensures file[..|prefix|] == prefix
    ensures file[|prefix|..|prefix| + |dimensionName|] == dimensionName
    ensures file[|file| - 4..] == ".png"
  {
    prefix + dimensionName + ".png"
  }

  /** The path of an image file inside the output directory. */
  function ImagePath(directory: string, file: string): (path: string)
    ensures |path| == |directory| + 1 + |file|
    ensures path[..|directory|] == directory && path[|directory|] == '/'
    ensures path[|directory| + 1..] == file
  {
    directory + "/" + file
  }

  /** With a fixed prefix and directory, different dimension names give different paths. */
  lemma ImagePathsDistinct(directory: string, prefix: string, a: string, b: string)
    ensures ImagePath(directory, FileName(prefix, a)) == ImagePath(directory, FileName(prefix, b)) ==> a == b
  {
    var pa, pb := ImagePath(directory, FileName(prefix, a)), ImagePath(directory, FileName(prefix, b));
    if pa == pb {
      assert FileName(prefix, a) == pa[|directory| + 1..];
      assert FileName(prefix, b) == pb[|directory| + 1..];
    }
  }

  /** The screenshots an export would take if the directory were there throughout: one per
      flagged dimension, in ascending dimension order. */
  function Planned(prefix: string, directory: string, names: seq<string>, flags: seq<bool>, colorByIndex: int): (shots: seq<Screenshot>)
    requires |flags| <= |names|
    ensures |shots| == CountEnabled(flags)
  {
    if flags == [] then []
    else
      var i := |flags| - 1;
      var rest := Planned(prefix, directory, names, flags[..i], colorByIndex);
      if flags[i] then rest + [Screenshot(ImagePath(directory, FileName(prefix, names[i])), names[i], colorByIndex)]
      else rest
  }

  /** The k-th planned screenshot is of the k-th flagged dimension, named and placed as the
      export names and places it. */
  lemma {:induction false} PlannedFollowsEnabled(prefix: string, directory: string, names: seq<string>, flags: seq<bool>, colorByIndex: int, k: nat)
    requires |flags| <= |names|
    requires k < CountEnabled(flags)
    ensures var d := EnabledIndices(flags)[k];
            Planned(prefix, directory, names, flags, colorByIndex)[k]
              == Screenshot(ImagePath(directory, FileName(prefix, names[d])), names[d], colorByIndex)
  {
    var i := |flags| - 1;
    var front := flags[..i];
    if k < CountEnabled(front) {
      PlannedFollowsEnabled(prefix, directory, names, front, colorByIndex, k);
    }
  }

  /** Planning a prefix of the flags plans a prefix of the screenshots. */
  lemma {:induction false} PlannedPrefix(prefix: string, directory: string, names: seq<string>, flags: seq<bool>, colorByIndex: int, j: nat)
    requires |flags| <= |names| && j <= |flags|
    ensures CountEnabled(flags[..j]) <= CountEnabled(flags)
    ensures Planned(prefix, directory, names, flags[..j], colorByIndex)
            == Planned(prefix, directory, names, flags, colorByIndex)[..CountEnabled(flags[..j])]
  {
    if j < |flags| {
      var front := flags[..|flags| - 1];
      assert flags[..j] == front[..j];
      PlannedPrefix(prefix, directory, names, front, colorByIndex, j);
    } else {
      assert flags[..j] == flags;
    }
  }

  /** How many of `planned` images get written when the directory check before the k-th write
      answers `directoryExists[k]`: the writes stop at the first missing directory. */
  function ExportedCount(directoryExists: seq<bool>, planned: nat): (n: nat)
    requires planned <= |directoryExists|
    ensures n <= planned
    ensures forall k :: 0 <= k < n ==> directoryExists[k]
    ensures n < planned ==> !directoryExists[n]
  {
    if planned == 0 then 0
    else
      var n := ExportedCount(directoryExists, planned - 1);
      if n < planned - 1 || !directoryExists[planned - 1] then n else planned
  }

  /** When every check before the n-th write succeeds and that one fails, exactly n of the
      planned images are written, however many were planned. */
  lemma {:induction false} ExportedCountStopsAt(directoryExists: seq<bool>, planned: nat, n: nat)
    requires n < planned <= |directoryExists|
    requires !directoryExists[n] && forall k :: 0 <= k < n ==> directoryExists[k]
    ensures ExportedCount(directoryExists, planned) == n
  {
    if planned > n + 1 {
      ExportedCountStopsAt(directoryExists, planned - 1, n);
    }
  }

  /** The export loop: visit the dimensions in ascending order, skip the ones not flagged, and
      for each flagged one check the directory and stop if it is missing, otherwise request the
      screenshot of that dimension. `directoryExists[k]` answers the check made before the k-th
      write. Returns the screenshots requested, their count and whether the loop was cut short. */
  method RunExport(prefix: string, directory: string, names: seq<string>, flags: seq<bool>,
                   colorByIndex: int, directoryExists: seq<bool>)
    returns (shots: seq<Screenshot>, exported: nat, aborted: bool)
    requires |flags| <= |names| && CountEnabled(flags) <= |directoryExists|
    ensures var n := ExportedCount(directoryExists, CountEnabled(flags));
            && exported == n == |shots|
            && shots == Planned(prefix, directory, names, flags, colorByIndex)[..n]
            && (aborted <==> n < CountEnabled(flags))
  {
    shots := [];
    exported := 0;
    aborted := false;
    var i := 0;
    while i < |flags|
      invariant 0 <= i <= |flags|
      invariant shots == Planned(prefix, directory, names, flags[..i], colorByIndex)
      invariant exported == |shots| <= CountEnabled(flags)
      invariant forall k :: 0 <= k < exported ==> directoryExists[k]
      invariant !aborted
    {
      assert flags[..i + 1][..i] == flags[..i];
      if !flags[i] {
        i := i + 1;
        continue;
      }
      PlannedPrefix(prefix, directory, names, flags, colorByIndex, i + 1);
      var file := FileName(prefix, names[i]);
      var path := ImagePath(directory, file);
      if !directoryExists[exported] {
        aborted := true;
        StopsAtMissingDirectory(prefix, directory, names, flags, colorByIndex, directoryExists, i);
        return;
      }
      shots := shots + [Screenshot(path, names[i], colorByIndex)];
      exported := exported + 1;
      i := i + 1;
    }
    assert flags[..i] == flags;
  }

  /** When the check before the write for flagged dimension `i` fails, the images written so far
      are exactly the planned ones before dimension `i`. */
  lemma StopsAtMissingDirectory(prefix: string, directory: string, names: seq<string>, flags: seq<bool>,
                                colorByIndex: int, directoryExists: seq<bool>, i: nat)
    requires |flags| <= |names| && CountEnabled(flags) <= |directoryExists|
    requires i < |flags| && flags[i]
    requires var n := CountEnabled(flags[..i]);
             n < |directoryExists| && !directoryExists[n] && forall k :: 0 <= k < n ==> directoryExists[k]
    ensures var n := CountEnabled(flags[..i]);
            && ExportedCount(directoryExists, CountEnabled(flags)) == n < CountEnabled(flags)
            && Planned(prefix, directory, names, flags[..i], colorByIndex)
               == Planned(prefix, directory, names, flags, colorByIndex)[..n]
  {
    PlannedPrefix(prefix, directory, names, flags, colorByIndex, i);
    PlannedPrefix(prefix, directory, names, flags, colorByIndex, i + 1);
    assert flags[..i + 1][..i] == flags[..i];
    ExportedCountStopsAt(directoryExists, CountEnabled(flags), CountEnabled(flags[..i]));
  }

  /** The export action with the state of the controls it reads and drives: the file-name
      prefix, the output directory, the dimension picker's flags, the export trigger, the
      colouring controls it borrows during an export, and the status line. */
  class Action {
    var prefix: string
    var directory: string
    var directoryValid: bool
    var dimensionsObjectName: string
    var dimensionNames: seq<string>
    var enabledDimensions: seq<bool>
    var triggerText: string
    var triggerTooltip: string
    var triggerEnabled: bool
    var colorByIndex: int
    var dimensionIndex: int
    var overrideRanges: bool
    var fixedRange: Range
    var colorMapRange: Range
    var status: Status
    var message: string
    /** Every screenshot requested from the widget, oldest first. */
    ghost var screenshots: seq<Screenshot>
    /** Every value the export trigger's enabled flag was set to by an export, oldest first. */
    ghost var exportTriggerLog: seq<bool>

    ghost predicate Valid()
      reads this`enabledDimensions, this`dimensionNames
    {
      |enabledDimensions| == |dimensionNames|
    }

    /** The export trigger shows the current state: its label and tooltip give the number of
        flagged dimensions, and it is enabled iff an export may run. */
    ghost predicate TriggerFollowsState()
      reads this`enabledDimensions, this`prefix, this`directoryValid
      reads this`triggerText, this`triggerTooltip, this`triggerEnabled
    {
      var count := CountEnabled(enabledDimensions);
      && triggerText == TriggerText(count)
      && triggerTooltip == TriggerTooltip(count)
      && (triggerEnabled <==> MayExport(prefix, directoryValid, enabledDimensions))
    }

    /** A fresh action: no prefix, no dimensions, the default trigger texts, no range override. */
    constructor (colorByIndex: int, dimensionIndex: int, colorMapRange: Range)
      ensures Valid()
      ensures prefix == "" && directory == "" && !directoryValid
      ensures dimensionNames == [] && enabledDimensions == []
      ensures triggerText == "Export" && triggerTooltip == "Export dimensions" && triggerEnabled
      ensures !overrideRanges && this.colorMapRange == colorMapRange
      ensures this.colorByIndex == colorByIndex && this.dimensionIndex == dimensionIndex
      ensures screenshots == [] && exportTriggerLog == []
    {
      prefix := "";
      directory := "";
      directoryValid := false;
      dimensionsObjectName := "";
      dimensionNames := [];
      enabledDimensions := [];
      triggerText := "Export";
      triggerTooltip := "Export dimensions";
      triggerEnabled := true;
      this.colorByIndex := colorByIndex;
      this.dimensionIndex := dimensionIndex;
      overrideRanges := false;
      fixedRange := Range(0.0, 1.0);
      this.colorMapRange := colorMapRange;
      status := Info;
      message := "";
      screenshots := [];
      exportTriggerLog := [];
    }

    /** Recompute the export trigger's label, tooltip and enabled flag from the current state. */
    method UpdateExportTrigger()
      modifies this`triggerText, this`triggerTooltip, this`triggerEnabled
      ensures var count := CountEnabled(enabledDimensions);
              && triggerText == TriggerText(count)
              && triggerTooltip == TriggerTooltip(count)
              && (triggerEnabled <==> MayExport(prefix, directoryValid, enabledDimensions))
    {
      var count := CountEnabled(enabledDimensions);
      triggerText := TriggerText(count);
      triggerTooltip := TriggerTooltip(count);
      triggerEnabled := MayExport(prefix, directoryValid, enabledDimensions);
    }

    /** The prefix field was edited: store it and refresh the trigger. */
    method SetPrefix(newPrefix: string)
      requires Valid()
      modifies this`prefix, this`triggerText, this`triggerTooltip, this`triggerEnabled
      ensures Valid() && prefix == newPrefix && dimensionsObjectName == old(dimensionsObjectName)
      ensures TriggerFollowsState()
      ensures triggerEnabled <==> MayExport(newPrefix, directoryValid, enabledDimensions)
      ensures directory == old(directory) && directoryValid == old(directoryValid)
      ensures enabledDimensions == old(enabledDimensions) && dimensionNames == old(dimensionNames)
    {
      prefix := newPrefix;
      UpdateExportTrigger();
    }

    /** A directory was picked: store it with its validity and refresh the trigger. */
    method SetDirectory(newDirectory: string, valid: bool)
      requires Valid()
      modifies this`directory, this`directoryValid, this`triggerText, this`triggerTooltip, this`triggerEnabled
      ensures Valid() && directory == newDirectory && directoryValid == valid
      ensures TriggerFollowsState()
      ensures triggerEnabled <==> MayExport(prefix, valid, enabledDimensions)
      ensures prefix == old(prefix) && enabledDimensions == old(enabledDimensions)
      ensures dimensionNames == old(dimensionNames)
    {
      directory := newDirectory;
      directoryValid := valid;
      UpdateExportTrigger();
    }

    /** The dimension picker was pointed at the position dataset (or its flags changed): take its
        dimension names and flags and refresh the trigger. */
    method UpdateDimensionsPicker(names: seq<string>, flags: seq<bool>)
      requires |flags| == |names|
      modifies this`dimensionNames, this`enabledDimensions
      modifies this`triggerText, this`triggerTooltip, this`triggerEnabled
      ensures Valid() && dimensionNames == names && enabledDimensions == flags
      ensures TriggerFollowsState()
      ensures triggerText == TriggerText(CountEnabled(flags))
      ensures triggerTooltip == TriggerTooltip(CountEnabled(flags))
      ensures triggerEnabled <==> MayExport(prefix, directoryValid, flags)
      ensures prefix == old(prefix) && directory == old(directory) && directoryValid == old(directoryValid)
    {
      dimensionNames := names;
      enabledDimensions := flags;
      UpdateExportTrigger();
    }

    /** The position dataset changed: a valid one names the picker and sets the prefix to its
        name followed by an underscore; an invalid one changes nothing. */
    method PositionDatasetChanged(datasetValid: bool, datasetText: string)
      requires Valid()
      modifies this`dimensionsObjectName, this`prefix
      modifies this`triggerText, this`triggerTooltip, this`triggerEnabled
      ensures Valid()
      ensures !datasetValid ==> unchanged(this)
      ensures datasetValid ==> prefix == datasetText + "_" && dimensionsObjectName == "Dimensions/" + datasetText
      ensures datasetValid ==> TriggerFollowsState()
      ensures datasetValid ==> (triggerEnabled <==> MayExport(prefix, directoryValid, enabledDimensions))
      ensures enabledDimensions == old(enabledDimensions) && dimensionNames == old(dimensionNames)
      ensures directoryValid == old(directoryValid)
    {
      if !datasetValid {
        return;
      }
      dimensionsObjectName := "Dimensions/" + datasetText;
      SetPrefix(datasetText + "_");
    }

    /** Export the flagged dimensions: colour by dimension (colour-by index 1), disable the
        trigger, take one screenshot per flagged dimension in ascending order until the directory
        is found missing (which sets the error status), re-enable the trigger, restore the
        colour-by and dimension indices and report how many images were written. */
    method ExportImages(directoryExists: seq<bool>)
      requires Valid() && CountEnabled(enabledDimensions) <= |directoryExists|
      modifies this`colorByIndex, this`dimensionIndex, this`triggerEnabled, this`exportTriggerLog
      modifies this`status, this`screenshots, this`colorMapRange, this`message
      ensures Valid()
      ensures colorByIndex == old(colorByIndex) && dimensionIndex == old(dimensionIndex)
      ensures exportTriggerLog == old(exportTriggerLog) + [false, true] && triggerEnabled
      ensures var flags := old(enabledDimensions);
              var n := ExportedCount(directoryExists, CountEnabled(flags));
              && screenshots == old(screenshots) + Planned(old(prefix), old(directory), old(dimensionNames), flags, 1)[..n]
              && status == (if n < CountEnabled(flags) then Error else Info)
              && message == ExportedMessage(n)
              && colorMapRange == (if old(overrideRanges) && n > 0 then old(fixedRange) else old(colorMapRange))
    {
      var cachedColorBy, cachedDimension := colorByIndex, dimensionIndex;
      // The loop reads none of the fields the export changes, so its outcome is computed first.
      var shots, exported, aborted := RunExport(prefix, directory, dimensionNames, enabledDimensions, 1, directoryExists);
      colorByIndex := 1;
      triggerEnabled, exportTriggerLog := false, exportTriggerLog + [false];
      screenshots := screenshots + shots;
      status := if aborted then Error else Info;
      colorMapRange := if overrideRanges && exported > 0 then fixedRange else colorMapRange;
      triggerEnabled, exportTriggerLog := true, exportTriggerLog + [true];
      colorByIndex, dimensionIndex := cachedColorBy, cachedDimension;
      message := ExportedMessage(exported);
    }

    /** A trigger of the export/cancel pair was pressed: the first runs the export as
        ExportImages does, the others change nothing. */
    method ExportCancelTriggered(triggerIndex: int, directoryExists: seq<bool>)
      requires Valid() && CountEnabled(enabledDimensions) <= |directoryExists|
      modifies this`colorByIndex, this`dimensionIndex, this`triggerEnabled, this`exportTriggerLog
      modifies this`status, this`screenshots, this`colorMapRange, this`message
      ensures Valid()
      ensures triggerIndex != 0 ==> unchanged(this)
      ensures colorByIndex == old(colorByIndex) && dimensionIndex == old(dimensionIndex)
      ensures triggerIndex == 0 ==> exportTriggerLog == old(exportTriggerLog) + [false, true] && triggerEnabled
      ensures triggerIndex == 0 ==>
              var flags := old(enabledDimensions);
              var n := ExportedCount(directoryExists, CountEnabled(flags));
              && screenshots == old(screenshots) + Planned(old(prefix), old(directory), old(dimensionNames), flags, 1)[..n]
              && status == (if n < CountEnabled(flags) then Error else Info)
              && message == ExportedMessage(n)
              && colorMapRange == (if old(overrideRanges) && n > 0 then old(fixedRange) else old(colorMapRange))
    {
      if triggerIndex == 0 {
        ExportImages(directoryExists);
      }
    }
  }
}
