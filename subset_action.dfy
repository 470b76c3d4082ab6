/** The subset action: create a subset of the selected points, either from the position dataset
    itself or from its source data, chosen from a list of at most two options. */
module SubsetAction {

  /** The options of the source-data picker for a dataset named `guiName` whose source dataset
      is named `sourceGuiName`: none for an unnamed dataset, otherwise the dataset itself, then
      its source data when that is a different dataset. */
  function SourceDataOptions(guiName: string, sourceGuiName: string): (options: seq<string>)
    ensures |options| <= 2
    ensures options == [] <==> guiName == ""
    ensures guiName != "" ==> options[0] == "From: " + guiName
    ensures |options| == 2 <==> guiName != "" && sourceGuiName != guiName
    ensures |options| == 2 ==> options[1] == "From: " + sourceGuiName + " (source data)"
  {
    if guiName == "" then []
    else if sourceGuiName != guiName then ["From: " + guiName, "From: " + sourceGuiName + " (source data)"]
    else ["From: " + guiName]
  }

  /** The request handed to the plugin: whether to take the points from the source data, and
      the subset name. */
  datatype SubsetRequest = SubsetRequest(fromSourceData: bool, name: string)

  /** The action with the state of its controls. */
  class Action {
    var positionValid: bool
    var selectionSize: nat
    var subsetName: string
    var sourceOptions: seq<string>
    var sourceIndex: int
    var sourceEnabled: bool
    var enabled: bool
    /** Every subset request made, oldest first. */
    ghost var requests: seq<SubsetRequest>

    /** A new action for a position dataset that is `valid` or not, has `selectionSize` selected
        points and is named `guiName`, with source data named `sourceGuiName`. The name is
        empty, no subset has been requested, and both handlers run once: the options follow
        the dataset when it is valid (with an invalid one the picker stays empty and enabled),
        and the action is usable iff the dataset is valid and has a selection. */
    constructor (valid: bool, selectionSize: nat, guiName: string, sourceGuiName: string)
      ensures positionValid == valid && this.selectionSize == selectionSize
      ensures subsetName == "" && requests == []
      ensures !valid ==> sourceOptions == [] && sourceEnabled
      ensures valid ==> sourceOptions == SourceDataOptions(guiName, sourceGuiName)
      ensures valid ==> (sourceEnabled <==> guiName != "" && sourceGuiName != guiName)
      ensures enabled <==> valid && selectionSize >= 1
    {
      positionValid := valid;
      this.selectionSize := selectionSize;
      subsetName := "";
      sourceOptions := [];
      sourceIndex := -1;
      sourceEnabled := true;
      enabled := true;
      requests := [];
      new;
      CurrentDatasetChanged(valid, guiName, sourceGuiName);
      UpdateActions();
    }

    /** The action is usable iff the position dataset is valid and has a selection. */
    method UpdateActions()
      modifies this`enabled
      ensures enabled <==> positionValid && selectionSize >= 1
    {
      enabled := positionValid && selectionSize >= 1;
    }

    /** The position dataset's selection changed. */
    method SelectionChanged(valid: bool, size: nat)
      modifies this`positionValid, this`selectionSize, this`enabled
      ensures positionValid == valid && selectionSize == size
      ensures enabled <==> valid && size >= 1
    {
      positionValid, selectionSize := valid, size;
      UpdateActions();
    }

    /** Ask the plugin for a subset: from the source data exactly when the second option is the
        current one. */
    method CreateSubset()
      modifies this`requests
      ensures requests == old(requests) + [SubsetRequest(sourceIndex == 1, subsetName)]
      ensures requests[|requests| - 1].fromSourceData <==> sourceIndex == 1
    {
      requests := requests + [SubsetRequest(sourceIndex == 1, subsetName)];
    }

    /** The position dataset changed. With an invalid dataset nothing changes; otherwise the
        options are rebuilt for its name and its source's name, and choosing is possible iff
        there are at least two options, that is iff the source data is a different dataset. */
    method CurrentDatasetChanged(valid: bool, guiName: string, sourceGuiName: string)
      modifies this`sourceOptions, this`sourceEnabled
      ensures !valid ==> sourceOptions == old(sourceOptions) && sourceEnabled == old(sourceEnabled)
      ensures valid ==> sourceOptions == SourceDataOptions(guiName, sourceGuiName)
      ensures valid ==> (sourceEnabled <==> guiName != "" && sourceGuiName != guiName)
    {
      if !valid {
        return;
      }
      var options: seq<string> := [];
      if guiName != "" {
        options := options + ["From: " + guiName];
        if sourceGuiName != guiName {
          options := options + ["From: " + sourceGuiName + " (source data)"];
        }
      }
      sourceOptions := options;
      sourceEnabled := |options| >= 2;
    }
  }
}
