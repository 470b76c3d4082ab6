/** The datasets group of the settings panel: a position picker offering point datasets and a
    colour picker offering point, colour and cluster datasets, each kept in step with the plugin's
    position dataset and the colouring action's colour dataset, and linkable to a public copy. */
module DatasetsAction {
  import opened Datasets

  class Action {
    /** Whether the group sits under a scatterplot plugin; without one no handler is wired. */
    const wired: bool
    var positionChoices: seq<Dataset>
    var colorChoices: seq<Dataset>
    var positionCurrent: Option<Dataset>
    var colorCurrent: Option<Dataset>
    /** The plugin's position dataset. */
    var pluginPosition: Option<Dataset>
    /** The colouring action's colour dataset. */
    var coloringColor: Option<Dataset>
    /** Whether the group is connected to a public action (kept by the base group). */
    var connected: bool
    /** Whether the two pickers are linked to the public action's pickers. */
    var pickersLinked: bool

    /** When wired, the pickers show what the plugin and the colouring action hold. */
    ghost predicate Valid()
      reads this
    {
      wired ==> positionCurrent == pluginPosition && colorCurrent == coloringColor
    }

    constructor (wired: bool, pluginPosition: Option<Dataset>, coloringColor: Option<Dataset>)
      ensures Valid() && this.wired == wired && !connected && !pickersLinked
      ensures this.pluginPosition == pluginPosition && this.coloringColor == coloringColor
    {
      this.wired := wired;
      positionChoices, colorChoices := [], [];
      this.pluginPosition, this.coloringColor := pluginPosition, coloringColor;
      positionCurrent, colorCurrent := pluginPosition, coloringColor;
      connected, pickersLinked := false, false;
    }

    /** Both pickers filter the loaded datasets: exactly the point datasets for position and
        exactly the point, colour and cluster datasets for colour, each in the order given. */
    method OfferDatasets(datasets: seq<Dataset>)
      modifies this`positionChoices, this`colorChoices
      ensures positionChoices == KeepTypes(datasets, PointTypes)
      ensures colorChoices == KeepTypes(datasets, ColorSourceTypes)
      ensures Subsequence(positionChoices, datasets) && Subsequence(colorChoices, datasets)
      ensures forall d :: d in positionChoices <==> d in datasets && d.dataType == PointType
      ensures forall d :: d in colorChoices <==> d in datasets && d.dataType in {PointType, ColorType, ClusterType}
    {
      positionChoices := FilterByType(datasets, PointTypes);
      colorChoices := FilterByType(datasets, ColorSourceTypes);
    }

    /** The plugin's position dataset changed: the position picker shows it. */
    method PositionDatasetChanged(d: Dataset)
      requires wired ==> pluginPosition == Some(d) && colorCurrent == coloringColor
      modifies this`positionCurrent
      ensures Valid()
      ensures wired ==> positionCurrent == Some(d)
      ensures !wired ==> positionCurrent == old(positionCurrent)
    {
      if wired {
        positionCurrent := Some(d);
      }
    }

    /** A position dataset was picked: it becomes the plugin's position dataset, whose change
        brings the picker in step. */
    method PositionPicked(d: Dataset)
      requires Valid() && d in positionChoices
      modifies this`pluginPosition, this`positionCurrent
      ensures Valid()
      ensures wired ==> pluginPosition == Some(d) && positionCurrent == Some(d)
      ensures !wired ==> pluginPosition == old(pluginPosition) && positionCurrent == old(positionCurrent)
    {
      if wired {
        pluginPosition := Some(d);
        PositionDatasetChanged(d);
      }
    }

    /** The colouring action's colour dataset changed: the colour picker shows it. */
    method ColoringColorChanged(d: Dataset)
      requires wired ==> coloringColor == Some(d) && positionCurrent == pluginPosition
      modifies this`colorCurrent
      ensures Valid()
      ensures wired ==> colorCurrent == Some(d)
      ensures !wired ==> colorCurrent == old(colorCurrent)
    {
      if wired {
        colorCurrent := Some(d);
      }
    }

    /** A colour dataset was picked: it is handed to the colouring action, whose change brings
        the picker in step. */
    method ColorPicked(d: Dataset)
      requires Valid() && d in colorChoices
      modifies this`coloringColor, this`colorCurrent
      ensures Valid()
      ensures wired ==> coloringColor == Some(d) && colorCurrent == Some(d)
      ensures !wired ==> coloringColor == old(coloringColor) && colorCurrent == old(colorCurrent)
    {
      if wired {
        coloringColor := Some(d);
        ColoringColorChanged(d);
      }
    }

    /** Connect to a public action: nothing happens unless it is a datasets group; the pickers
        are linked only when connecting recursively, and the group becomes connected. */
    method ConnectToPublicAction(publicIsDatasetsAction: bool, recursive: bool)
      modifies this`connected, this`pickersLinked
      ensures !publicIsDatasetsAction ==> connected == old(connected) && pickersLinked == old(pickersLinked)
      ensures publicIsDatasetsAction ==> connected && (pickersLinked <==> old(pickersLinked) || recursive)
    {
      if !publicIsDatasetsAction {
        return;
      }
      if recursive {
        pickersLinked := true;
      }
      connected := true;
    }

    /** Disconnect: nothing happens when not connected; the pickers are unlinked only when
        disconnecting recursively, and the group is no longer connected. */
    method DisconnectFromPublicAction(recursive: bool)
      modifies this`connected, this`pickersLinked
      ensures !old(connected) ==> !connected && pickersLinked == old(pickersLinked)
      ensures old(connected) ==> !connected && (pickersLinked <==> old(pickersLinked) && !recursive)
    {
      if !connected {
        return;
      }
      if recursive {
        pickersLinked := false;
      }
      connected := false;
    }
  }
}
