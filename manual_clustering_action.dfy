/** The older manual-clustering action: the clusters go to a cluster dataset referred to by name,
    which follows renames of the plugin's colour dataset, and whose reference is dropped when the
    points dataset is renamed. */
module ManualClusteringAction {
  import opened Graphics
  import opened Datasets

  /** The action with the state of its controls and the clusters of every cluster dataset,
      keyed by dataset name. A dataset reference is valid when its name names a dataset. */
  class Action {
    var pointsValid: bool
    /** The selection indices of the points dataset. */
    var selection: seq<nat>
    /** The name the cluster-dataset reference holds; empty after a reset. */
    var clustersDataset: string
    var clusterSets: map<string, seq<Cluster>>
    /** The name the plugin's colour-dataset reference holds. */
    var colorsDataset: string
    var targetOptions: seq<string>
    var targetCurrentText: string
    /** The number of entries in the target picker's context. */
    var targetContextSize: nat
    var name: string
    var color: Vec3
    var targetEnabled: bool
    var nameEnabled: bool
    var colorEnabled: bool
    var addEnabled: bool
    /** Names of the datasets whose data-changed notification was sent, oldest first. */
    ghost var dataChanged: seq<string>

    /** The enabled flags follow the rules of UpdateActions. */
    ghost predicate FlagsFollowRules()
      reads this`selection, this`targetContextSize, this`name
      reads this`targetEnabled, this`nameEnabled, this`colorEnabled, this`addEnabled
    {
      && (targetEnabled <==> |selection| >= 1 && targetContextSize >= 2)
      && (nameEnabled <==> |selection| >= 1)
      && (colorEnabled <==> |selection| >= 1)
      && (addEnabled <==> |selection| >= 1 && name != "")
    }

    /** The flags are as they were before the call. */
    twostate predicate FlagsUnchanged()
      reads this`targetEnabled, this`nameEnabled, this`colorEnabled, this`addEnabled
    {
      && targetEnabled == old(targetEnabled) && nameEnabled == old(nameEnabled)
      && colorEnabled == old(colorEnabled) && addEnabled == old(addEnabled)
    }

    /** Set the enabled flags from the number of selected points, the picker context and the
        name: the target needs a selection and at least two choices, name and colour need a
        selection, and adding needs a selection and a non-empty name. */
    method UpdateActions()
      modifies this`targetEnabled, this`nameEnabled, this`colorEnabled, this`addEnabled
      ensures targetEnabled <==> |selection| >= 1 && targetContextSize >= 2
      ensures nameEnabled <==> |selection| >= 1
      ensures colorEnabled <==> |selection| >= 1
      ensures addEnabled <==> |selection| >= 1 && name != ""
      ensures FlagsFollowRules()
    {
      var hasSelection := |selection| >= 1;
      var canAddCluster := hasSelection && name != "";
      targetEnabled := hasSelection && targetContextSize >= 2;
      nameEnabled := hasSelection;
      colorEnabled := hasSelection;
      addEnabled := canAddCluster;
    }

    /** A new action: no cluster dataset, an empty name, and the flags set from the state. */
    constructor (pointsValid: bool, selection: seq<nat>, clusterSets: map<string, seq<Cluster>>,
                 colorsDataset: string, targetContextSize: nat, initialColor: Vec3)
      ensures this.pointsValid == pointsValid && this.selection == selection
      ensures this.clusterSets == clusterSets && this.colorsDataset == colorsDataset
      ensures clustersDataset == "" && name == "" && color == initialColor
      ensures targetEnabled <==> |selection| >= 1 && targetContextSize >= 2
      ensures !addEnabled && FlagsFollowRules()
      ensures dataChanged == []
    {
      this.pointsValid := pointsValid;
      this.selection := selection;
      clustersDataset := "";
      this.clusterSets := clusterSets;
      this.colorsDataset := colorsDataset;
      targetOptions := [];
      targetCurrentText := "";
      this.targetContextSize := targetContextSize;
      name := "";
      color := initialColor;
      dataChanged := [];
      new;
      UpdateActions();
    }

    /** The selection changed: take it and refresh the enabled flags. */
    method SelectionChanged(newSelection: seq<nat>)
      modifies this`selection, this`targetEnabled, this`nameEnabled, this`colorEnabled, this`addEnabled
      ensures selection == newSelection
      ensures nameEnabled <==> |newSelection| >= 1
      ensures addEnabled <==> |newSelection| >= 1 && name != ""
      ensures FlagsFollowRules()
    {
      selection := newSelection;
      UpdateActions();
    }

    /** The name was edited: store it and refresh the enabled flags. */
    method NameChanged(newName: string)
      modifies this`name, this`targetEnabled, this`nameEnabled, this`colorEnabled, this`addEnabled
      ensures name == newName
      ensures addEnabled <==> |selection| >= 1 && newName != ""
      ensures FlagsFollowRules()
    {
      name := newName;
      UpdateActions();
    }

    /** Add the selection as a cluster. Nothing happens unless the points dataset is valid and
        the cluster-dataset reference names a dataset; otherwise exactly one cluster with the
        current name, colour and selection indices is appended to that dataset (the others stay
        as they were), the dataset is notified and the name is reset. */
    method AddCluster()
      modifies this`clusterSets, this`dataChanged, this`name
      modifies this`targetEnabled, this`nameEnabled, this`colorEnabled, this`addEnabled
      ensures !old(pointsValid) || old(clustersDataset) !in old(clusterSets) ==>
                clusterSets == old(clusterSets) && dataChanged == old(dataChanged) && name == old(name)
                && FlagsUnchanged()
      ensures old(pointsValid) && old(clustersDataset) in old(clusterSets) ==>
                var target := old(clustersDataset);
                && clusterSets == old(clusterSets)[target := old(clusterSets)[target] + [Cluster(old(name), old(color), old(selection))]]
                && dataChanged == old(dataChanged) + [target]
                && name == "" && !addEnabled && FlagsFollowRules()
    {
      if !pointsValid || clustersDataset !in clusterSets {
        return;
      }
      clusterSets := clusterSets[clustersDataset := clusterSets[clustersDataset] + [Cluster(name, color, selection)]];
      dataChanged := dataChanged + [clustersDataset];
      name := "";
      UpdateActions();
    }

    /** The points dataset was renamed: the target choice, the name and the cluster-dataset
        reference are reset. */
    method PointsRenamed()
      modifies this`targetCurrentText, this`name, this`clustersDataset
      modifies this`targetEnabled, this`nameEnabled, this`colorEnabled, this`addEnabled
      ensures targetCurrentText == "" && name == "" && clustersDataset == ""
      ensures !addEnabled && FlagsFollowRules()
    {
      targetCurrentText := "";
      name := "";
      clustersDataset := "";
      UpdateActions();
    }

    /** Offer the names of the cluster datasets as targets and show the referenced one. */
    method UpdateTargets(clusterDatasetNames: seq<string>)
      modifies this`targetOptions, this`targetCurrentText
      ensures targetOptions == clusterDatasetNames && targetCurrentText == clustersDataset
    {
      targetOptions := clusterDatasetNames;
      targetCurrentText := clustersDataset;
    }

    /** The colour-dataset reference was renamed to `newName`, which it now holds. An empty name
        stops the handler there. Otherwise a cluster-typed colour dataset becomes the cluster
        dataset (another type leaves the reference as it was), and the flags and targets are
        refreshed. */
    method ColorsRenamed(newName: string, colorsType: DataType, clusterDatasetNames: seq<string>)
      modifies this`colorsDataset, this`clustersDataset, this`targetOptions, this`targetCurrentText
      modifies this`targetEnabled, this`nameEnabled, this`colorEnabled, this`addEnabled
      ensures colorsDataset == newName
      ensures newName == "" ==> clustersDataset == old(clustersDataset)
                                && targetOptions == old(targetOptions)
                                && targetCurrentText == old(targetCurrentText)
                                && FlagsUnchanged()
      ensures newName != "" ==> clustersDataset == (if colorsType == ClusterType then newName else old(clustersDataset))
      ensures newName != "" ==> targetOptions == clusterDatasetNames && targetCurrentText == clustersDataset
      ensures newName != "" ==> (addEnabled <==> |selection| >= 1 && name != "")
                                && (targetEnabled <==> |selection| >= 1 && targetContextSize >= 2)
                                && FlagsFollowRules()
    {
      colorsDataset := newName;
      if newName == "" {
        return;
      }
      if colorsType == ClusterType {
        clustersDataset := newName;
      }
      UpdateActions();
      UpdateTargets(clusterDatasetNames);
    }

    /** Create the default cluster dataset `newName` (the non-empty name the host gives the new
        set), unless the points dataset is invalid or a cluster dataset is already referenced.
        The colour-dataset reference is renamed to the new set, and its rename handler makes the
        set the cluster dataset and refreshes the flags and the targets, which the host now
        lists as `clusterDatasetNames`. From then on a cluster dataset is referenced, so a
        second call creates nothing, and an added cluster goes to the new set. */
    method CreateDefaultClustersSet(newName: string, clusterDatasetNames: seq<string>)
      requires newName != "" && newName !in clusterSets
      modifies this`clusterSets, this`colorsDataset, this`clustersDataset
      modifies this`targetOptions, this`targetCurrentText
      modifies this`targetEnabled, this`nameEnabled, this`colorEnabled, this`addEnabled
      ensures !pointsValid || old(clustersDataset) in old(clusterSets) ==>
                clusterSets == old(clusterSets) && colorsDataset == old(colorsDataset)
                && clustersDataset == old(clustersDataset)
                && targetOptions == old(targetOptions) && targetCurrentText == old(targetCurrentText)
                && FlagsUnchanged()
      ensures pointsValid && old(clustersDataset) !in old(clusterSets) ==>
                && clusterSets == old(clusterSets)[newName := []]
                && colorsDataset == newName && clustersDataset == newName
                && targetOptions == clusterDatasetNames && targetCurrentText == newName
                && (addEnabled <==> |selection| >= 1 && name != "")
                && (targetEnabled <==> |selection| >= 1 && targetContextSize >= 2)
                && FlagsFollowRules()
      ensures pointsValid ==> clustersDataset in clusterSets
    {
      if !pointsValid || clustersDataset in clusterSets {
        return;
      }
      clusterSets := clusterSets[newName := []];
      ColorsRenamed(newName, ClusterType, clusterDatasetNames);
    }
  }

  /** With a valid points dataset and no cluster dataset yet, creating the default set `setName`
      and then adding a cluster named `clusterName` leaves the new set holding exactly that
      cluster, and a second creation, under any other unused name, leaves every set as it was. */
  method CreateThenAdd(selection: seq<nat>, clusterSets: map<string, seq<Cluster>>, initialColor: Vec3,
                       setName: string, secondName: string, clusterName: string,
                       clusterDatasetNames: seq<string>)
    returns (created: seq<Cluster>, unchangedBySecondCreate: bool)
    requires setName != "" && setName !in clusterSets && "" !in clusterSets
    requires secondName != "" && secondName != setName && secondName !in clusterSets
    ensures created == [Cluster(clusterName, initialColor, selection)]
    ensures unchangedBySecondCreate
  {
    var action := new Action(true, selection, clusterSets, "", 0, initialColor);
    action.CreateDefaultClustersSet(setName, clusterDatasetNames);
    action.NameChanged(clusterName);
    action.AddCluster();
    created := action.clusterSets[setName];
    var before := action.clusterSets;
    action.CreateDefaultClustersSet(secondName, clusterDatasetNames);
    unchangedBySecondCreate := action.clusterSets == before;
  }
}
