/** The manual-clustering group of the settings panel: pick (or create) a cluster dataset, give
    the current selection of the position dataset a name and a colour, and append it to the
    picked dataset as one new cluster. */
module ClusteringAction {
  import opened Graphics
  import opened Datasets

  /** The group with the state of its controls and the clusters of every cluster dataset,
      keyed by dataset id. */
  class Action {
    var positionValid: bool
    /** The selection indices of the position dataset. */
    var selection: seq<nat>
    /** The datasets the target picker offers. */
    var pickerDatasets: seq<Dataset>
    /** The picked target cluster dataset, if any. */
    var target: Option<Dataset>
    var clusterSets: map<string, seq<Cluster>>
    var name: string
    var color: Vec3
    var datasetName: string
    var createEnabled: bool
    var groupEnabled: bool
    var nameEnabled: bool
    var colorEnabled: bool
    var addEnabled: bool
    /** The colour dataset of the colouring action. */
    var colorDataset: Option<Dataset>
    /** Ids of the datasets whose data-changed notification was sent, oldest first. */
    ghost var dataChanged: seq<string>
    /** Datasets announced as added, oldest first. */
    ghost var datasetsAdded: seq<Dataset>

    /** A new group: no target, empty name and dataset name, creating disabled, the flags set
        from the position dataset, and the first colour `initialColor`. */
    constructor (positionValid: bool, selection: seq<nat>, clusterSets: map<string, seq<Cluster>>, initialColor: Vec3)
      ensures this.positionValid == positionValid && this.selection == selection
      ensures this.clusterSets == clusterSets && pickerDatasets == [] && target.None?
      ensures name == "" && datasetName == "" && !createEnabled && color == initialColor
      ensures groupEnabled <==> positionValid && |selection| >= 1
      ensures !nameEnabled && !colorEnabled && !addEnabled
      ensures FlagsFollowRules()
      ensures dataChanged == [] && datasetsAdded == []
    {
      this.positionValid := positionValid;
      this.selection := selection;
      pickerDatasets := [];
      target := None;
      this.clusterSets := clusterSets;
      name := "";
      datasetName := "";
      createEnabled := false;
      colorDataset := None;
      dataChanged := [];
      datasetsAdded := [];
      color := initialColor;
      new;
      UpdateActionsReadOnly();
    }

    /** The enabled flags follow the read-only rules of UpdateActionsReadOnly. */
    ghost predicate FlagsFollowRules()
      reads this`positionValid, this`selection, this`target, this`name
      reads this`groupEnabled, this`nameEnabled, this`colorEnabled, this`addEnabled
    {
      && (groupEnabled <==> positionValid && |selection| >= 1)
      && (nameEnabled <==> target.Some?)
      && (colorEnabled <==> target.Some?)
      && (addEnabled <==> name != "")
    }

    /** Set the enabled flags: the group needs a valid position dataset with a selection, name
        and colour need a picked target, and adding needs only a non-empty name (whether there
        is a selection is computed but not used). */
    method UpdateActionsReadOnly()
      modifies this`groupEnabled, this`nameEnabled, this`colorEnabled, this`addEnabled
      ensures groupEnabled <==> positionValid && |selection| >= 1
      ensures nameEnabled <==> target.Some?
      ensures colorEnabled <==> target.Some?
      ensures addEnabled <==> name != ""
      ensures FlagsFollowRules()
    {
      var selectedPoints := if positionValid then |selection| else 0;
      var hasSelection := selectedPoints >= 1;
      groupEnabled := positionValid && hasSelection;
      nameEnabled := target.Some?;
      colorEnabled := target.Some?;
      addEnabled := name != "";
    }

    /** The position dataset or its selection changed: take the new state and refresh the
        enabled flags. */
    method PositionChanged(valid: bool, newSelection: seq<nat>)
      modifies this`positionValid, this`selection
      modifies this`groupEnabled, this`nameEnabled, this`colorEnabled, this`addEnabled
      ensures positionValid == valid && selection == newSelection
      ensures groupEnabled <==> valid && |newSelection| >= 1
      ensures addEnabled <==> name != ""
      ensures FlagsFollowRules()
    {
      positionValid, selection := valid, newSelection;
      UpdateActionsReadOnly();
    }

    /** The cluster name was edited: store it and refresh the enabled flags. */
    method NameChanged(newName: string)
      modifies this`name, this`groupEnabled, this`nameEnabled, this`colorEnabled, this`addEnabled
      ensures name == newName
      ensures addEnabled <==> newName != ""
      ensures groupEnabled <==> positionValid && |selection| >= 1
      ensures FlagsFollowRules()
    {
      name := newName;
      UpdateActionsReadOnly();
    }

    /** The picker's filter: offer exactly the cluster datasets, in the order given. */
    method OfferDatasets(datasets: seq<Dataset>)
      modifies this`pickerDatasets
      ensures pickerDatasets == KeepTypes(datasets, ClusterTypes)
      ensures Subsequence(pickerDatasets, datasets)
      ensures forall d :: d in pickerDatasets <==> d in datasets && d.dataType == ClusterType
    {
      pickerDatasets := FilterByType(datasets, ClusterTypes);
    }

    /** The new-dataset name was edited: creating is possible iff it is non-empty. */
    method DatasetNameChanged(newName: string)
      modifies this`datasetName, this`createEnabled
      ensures datasetName == newName
      ensures createEnabled <==> newName != ""
    {
      datasetName := newName;
      createEnabled := newName != "";
    }

    /** Create a cluster dataset with the entered name under the position dataset, announce it
        and make it the picker's current dataset. The host chooses `newId`, an id not in use. */
    method CreateClusterDataset(newId: string)
      requires newId !in clusterSets
      modifies this`clusterSets, this`datasetsAdded, this`target
      ensures var created := Dataset(newId, datasetName, ClusterType);
              && target == Some(created)
              && datasetsAdded == old(datasetsAdded) + [created]
      ensures clusterSets == old(clusterSets)[newId := []]
    {
      var created := Dataset(newId, datasetName, ClusterType);
      clusterSets := clusterSets[newId := []];
      datasetsAdded := datasetsAdded + [created];
      target := Some(created);
    }

    /** A cluster dataset was picked: it becomes the target and the colouring action's colour
        dataset, and the enabled flags are refreshed. */
    method DatasetPicked(d: Dataset)
      requires d in pickerDatasets
      modifies this`target, this`colorDataset
      modifies this`groupEnabled, this`nameEnabled, this`colorEnabled, this`addEnabled
      ensures target == Some(d) && colorDataset == Some(d)
      ensures nameEnabled && colorEnabled
      ensures addEnabled <==> name != ""
      ensures FlagsFollowRules()
    {
      colorDataset := Some(d);
      target := Some(d);
      UpdateActionsReadOnly();
    }

    /** Add the selection as a cluster. Nothing happens without a valid position dataset or a
        picked target; otherwise exactly one cluster with the current name, colour and
        selection indices is appended to the target's clusters (the others stay as they were),
        the target is notified, the name is reset and the colour becomes `nextColor`. */
    method AddCluster(nextColor: Vec3)
      modifies this`clusterSets, this`dataChanged, this`name, this`color
      modifies this`groupEnabled, this`nameEnabled, this`colorEnabled, this`addEnabled
      ensures !old(positionValid) || old(target).None? ==>
                clusterSets == old(clusterSets) && dataChanged == old(dataChanged)
                && name == old(name) && color == old(color)
                && groupEnabled == old(groupEnabled) && nameEnabled == old(nameEnabled)
                && colorEnabled == old(colorEnabled) && addEnabled == old(addEnabled)
      ensures old(positionValid) && old(target).Some? ==>
                var id := old(target).value.id;
                var before := if id in old(clusterSets) then old(clusterSets)[id] else [];
                && clusterSets == old(clusterSets)[id := before + [Cluster(old(name), old(color), old(selection))]]
                && dataChanged == old(dataChanged) + [id]
                && name == "" && !addEnabled && color == nextColor
                && FlagsFollowRules()
    {
      if !positionValid {
        return;
      }
      if target.None? {
        return;
      }
      var id := target.value.id;
      var before := if id in clusterSets then clusterSets[id] else [];
      clusterSets := clusterSets[id := before + [Cluster(name, color, selection)]];
      dataChanged := dataChanged + [id];
      name := "";
      UpdateActionsReadOnly();
      color := nextColor;
    }
  }
}
