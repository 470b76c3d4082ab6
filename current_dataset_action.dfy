/** The current-dataset action: one picker offering the point datasets, kept in step with the
    plugin's position dataset. */
module CurrentDatasetAction {
  import opened Datasets

  class Action {
    var choices: seq<Dataset>
    var current: Option<Dataset>
    /** The plugin's position dataset. */
    var pluginPosition: Option<Dataset>

    /** The picker shows the plugin's position dataset. */
    ghost predicate Valid()
      reads this
    {
      current == pluginPosition
    }

    constructor (pluginPosition: Option<Dataset>)
      ensures Valid() && this.pluginPosition == pluginPosition && choices == []
    {
      choices := [];
      this.pluginPosition := pluginPosition;
      current := pluginPosition;
    }

    /** The picker's filter: exactly the point datasets, in the order given. */
    method OfferDatasets(datasets: seq<Dataset>)
      modifies this`choices
      ensures choices == KeepTypes(datasets, PointTypes)
      ensures Subsequence(choices, datasets)
      ensures forall d :: d in choices <==> d in datasets && d.dataType == PointType
    {
      choices := FilterByType(datasets, PointTypes);
    }

    /** The plugin's position dataset changed: the picker shows it. */
    method PositionDatasetChanged(d: Dataset)
      requires pluginPosition == Some(d)
      modifies this`current
      ensures Valid() && current == Some(d)
    {
      current := Some(d);
    }

    /** A dataset was picked: it becomes the plugin's position dataset, whose change brings the
        picker in step. */
    method DatasetPicked(d: Dataset)
      requires d in choices
      modifies this`pluginPosition, this`current
      ensures Valid() && pluginPosition == Some(d) && current == Some(d)
    {
      pluginPosition := Some(d);
      PositionDatasetChanged(d);
    }
  }
}
