/** The position action: the x and y dimension pickers of the position dataset, their defaults
    when the dataset changes, and the forwarding of every pick to the plugin. */
module PositionAction {

  /** The default y dimension: the second dimension when there is one, else the first. It is
      a dimension of the dataset whenever the dataset has any, and differs from the default x
      dimension (the first) exactly when there are two dimensions to choose from. */
  function DefaultYIndex(numDimensions: nat): (y: nat)
    ensures numDimensions >= 1 ==> y < numDimensions
    ensures y != 0 <==> numDimensions >= 2
    ensures y <= 1
  {
    if numDimensions >= 2 then 1 else 0
  }

  /** The two pickers and the dimensions the plugin was last told. */
  class Action {
    var numDimensions: nat
    var xCurrent: int
    var xDefault: int
    var yCurrent: int
    var yDefault: int
    var pluginXDimension: int
    var pluginYDimension: int

    /** Every pick has been forwarded: the plugin shows what the pickers show. */
    ghost predicate Valid()
      reads this
    {
      pluginXDimension == xCurrent && pluginYDimension == yCurrent
    }

    constructor (numDimensions: nat)
      ensures Valid() && this.numDimensions == numDimensions
      ensures xCurrent == 0 && yCurrent == 0
    {
      this.numDimensions := numDimensions;
      xCurrent, xDefault, yCurrent, yDefault := 0, 0, 0, 0;
      pluginXDimension, pluginYDimension := 0, 0;
    }

    /** A pick in the x picker is forwarded unchanged to the plugin. */
    method XDimensionPicked(index: int)
      requires Valid()
      modifies this
      ensures Valid() && xCurrent == index && pluginXDimension == index
      ensures yCurrent == old(yCurrent) && numDimensions == old(numDimensions)
      ensures xDefault == old(xDefault) && yDefault == old(yDefault)
    {
      xCurrent := index;
      pluginXDimension := index;
    }

    /** A pick in the y picker is forwarded unchanged to the plugin. */
    method YDimensionPicked(index: int)
      requires Valid()
      modifies this
      ensures Valid() && yCurrent == index && pluginYDimension == index
      ensures xCurrent == old(xCurrent) && numDimensions == old(numDimensions)
      ensures xDefault == old(xDefault) && yDefault == old(yDefault)
    {
      yCurrent := index;
      pluginYDimension := index;
    }

    /** The position dataset changed: x becomes (and defaults to) the first dimension, y the
        second when there is one and the first otherwise; the picks reach the plugin. */
    method PositionDatasetChanged(newNumDimensions: nat)
      requires Valid()
      modifies this
      ensures Valid() && numDimensions == newNumDimensions
      ensures xCurrent == 0 && xDefault == 0
      ensures yCurrent == DefaultYIndex(newNumDimensions) && yDefault == yCurrent
      ensures newNumDimensions >= 1 ==> 0 <= pluginYDimension < newNumDimensions
    {
      numDimensions := newNumDimensions;
      XDimensionPicked(0);
      xDefault := 0;
      var yIndex := if numDimensions >= 2 then 1 else 0;
      YDimensionPicked(yIndex);
      yDefault := yIndex;
    }

    /** The current x dimension; nothing changes. */
    method GetDimensionX() returns (x: int)
      requires Valid()
      ensures x == xCurrent && x == pluginXDimension
    {
      x := xCurrent;
    }

    /** The current y dimension; nothing changes. */
    method GetDimensionY() returns (y: int)
      requires Valid()
      ensures y == yCurrent && y == pluginYDimension
    {
      y := yCurrent;
    }
  }
}
