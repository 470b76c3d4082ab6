/** The loaded-datasets action: a position picker offering point datasets and a colour picker
    offering point, colour and cluster datasets, kept in step with the plugin's position dataset
    and the colouring action's colour dataset. */
module LoadedDatasetsAction {
  import opened Datasets

  class Action {
    var positionChoices: seq<Dataset>
    var colorChoices: seq<Dataset>
    var positionCurrent: Option<Dataset>
    var colorCurrent: Option<Dataset>
    /** The plugin's position dataset. */
    var pluginPosition: Option<Dataset>
    /** The colouring action's colour dataset. */
    var coloringColor: Option<Dataset>

    /** The pickers show what the plugin and the colouring action hold. */
    ghost predicate Valid()
      reads this
    {
      positionCurrent == pluginPosition && colorCurrent == coloringColor
    }

    constructor (pluginPosition: Option<Dataset>, coloringColor: Option<Dataset>)
      ensures Valid() && this.pluginPosition == pluginPosition && this.coloringColor == coloringColor
    {
      positionChoices, colorChoices := [], [];
      this.pluginPosition, this.coloringColor := pluginPosition, coloringColor;
      positionCurrent, colorCurrent := pluginPosition, coloringColor;
    }

    /** Both pickers filter the loaded datasets: exactly the point datasets for position and
        exactly the point, colour and cluster datasets for colour, each in the order given. */
    method OfferDatasets(datasets: seq<Dataset>)
      modifies this`positionChoices, this`colorChoices
      ensures positionChoices == KeepTypes(datasets, PointTypes)
      ensures colorChoices == KeepTypes(datasets, ColorSourceTypes)
      ensures Subsequence(positionChoices, datasets) && Subsequence(colorChoices, datasets)
      ensures forall d :: d in positionChoices <==> d in datasets && d.dataType == PointType
      ensures forall d :: d in colorChoices <==> d in datasets && d.dataType in {PointType, ColorType, ClusterType}
    {
      positionChoices := FilterByType(datasets, PointTypes);
      colorChoices := FilterByType(datasets, ColorSourceTypes);
    }

    /** The plugin's position dataset changed: the position picker shows it. */
    method PositionDatasetChanged(d: Dataset)
      requires pluginPosition == Some(d) && colorCurrent == coloringColor
      modifies this`positionCurrent
      ensures Valid() && positionCurrent == Some(d)
    {
      positionCurrent := Some(d);
    }

    /** A position dataset was picked: it becomes the plugin's position dataset, whose change
        brings the picker in step. */
    method PositionPicked(d: Dataset)
      requires Valid() && d in positionChoices
      modifies this`pluginPosition, this`positionCurrent
      ensures Valid() && pluginPosition == Some(d) && positionCurrent == Some(d)
    {
      pluginPosition := Some(d);
      PositionDatasetChanged(d);
    }

    /** The colouring action's colour dataset changed: the colour picker shows it. */
    method ColoringColorChanged(d: Dataset)
      requires coloringColor == Some(d) && positionCurrent == pluginPosition
      modifies this`colorCurrent
      ensures Valid() && colorCurrent == Some(d)
    {
      colorCurrent := Some(d);
    }

    /** A colour dataset was picked: it is handed to the colouring action, whose change brings
        the picker in step. */
    method ColorPicked(d: Dataset)
      requires Valid() && d in colorChoices
      modifies this`coloringColor, this`colorCurrent
      ensures Valid() && coloringColor == Some(d) && colorCurrent == Some(d)
    {
      coloringColor := Some(d);
      ColoringColorChanged(d);
    }
  }
}
