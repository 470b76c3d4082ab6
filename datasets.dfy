/** Dataset handles as the dataset pickers see them, and the type filter that every picker
    installs: keep the datasets whose data type is accepted, in the order they were offered. */
module Datasets {
  import opened Graphics

  datatype Option<T> = None | Some(value: T)

  datatype DataType = PointType | ColorType | ClusterType | OtherType(typeName: string)

  /** A host dataset handle: identity, display name and data type. */
  datatype Dataset = Dataset(id: string, guiName: string, dataType: DataType)

  /** The datasets of `datasets` whose type is in `accepted`, in input order. */
  function KeepTypes(datasets: seq<Dataset>, accepted: set<DataType>): (kept: seq<Dataset>)
    ensures |kept| <= |datasets|
    ensures forall i :: 0 <= i < |kept| ==> kept[i].dataType in accepted
  {
    if datasets == [] then []
    else
      var rest := KeepTypes(datasets[..|datasets| - 1], accepted);
      var last := datasets[|datasets| - 1];
      if last.dataType in accepted then rest + [last] else rest
  }

  /** `a` occurs in `b` with its elements in the same relative order (greedy match from the end). */
  predicate Subsequence<T(==)>(a: seq<T>, b: seq<T>)
    decreases |b|
  {
    if a == [] then true
    else if b == [] then false
    else if a[|a| - 1] == b[|b| - 1] then Subsequence(a[..|a| - 1], b[..|b| - 1])
    else Subsequence(a, b[..|b| - 1])
  }

  /** A filter never adds, duplicates or reorders datasets. */
  lemma {:induction false} KeepTypesIsSubsequence(datasets: seq<Dataset>, accepted: set<DataType>)
    ensures Subsequence(KeepTypes(datasets, accepted), datasets)
  {
    if datasets != [] {
      var front := datasets[..|datasets| - 1];
      KeepTypesIsSubsequence(front, accepted);
      var rest := KeepTypes(front, accepted);
      var kept := KeepTypes(datasets, accepted);
      if datasets[|datasets| - 1].dataType in accepted {
        assert kept[..|kept| - 1] == rest;
      } else if kept != [] {
        assert kept[|kept| - 1].dataType in accepted;
      }
    }
  }

  /** A dataset is kept exactly when it is offered and its type is accepted. */
  lemma {:induction false} KeepTypesMembership(datasets: seq<Dataset>, accepted: set<DataType>, d: Dataset)
    ensures d in KeepTypes(datasets, accepted) <==> d in datasets && d.dataType in accepted
  {
    if datasets != [] {
      var front := datasets[..|datasets| - 1];
      KeepTypesMembership(front, accepted, d);
      assert datasets == front + [datasets[|datasets| - 1]];
    }
  }

  /** The filter loop every picker installs: append each accepted dataset to the output list.
      The result keeps exactly the offered datasets of an accepted type, in their order. */
  method FilterByType(datasets: seq<Dataset>, accepted: set<DataType>) returns (kept: seq<Dataset>)
    ensures kept == KeepTypes(datasets, accepted)
    ensures Subsequence(kept, datasets)
    ensures forall d :: d in kept <==> d in datasets && d.dataType in accepted
  {
    kept := [];
    for i := 0 to |datasets|
      invariant kept == KeepTypes(datasets[..i], accepted)
    {
      assert datasets[..i + 1][..i] == datasets[..i];
      if datasets[i].dataType in accepted {
        kept := kept + [datasets[i]];
      }
    }
    assert datasets[..|datasets|] == datasets;
    KeepTypesIsSubsequence(datasets, accepted);
    forall d
      ensures d in kept <==> d in datasets && d.dataType in accepted
    {
      KeepTypesMembership(datasets, accepted, d);
    }
  }

  /** A named, coloured group of point indices of a cluster dataset; the colour is kept as its
      (red, green, blue) components. */
  datatype Cluster = Cluster(name: string, color: Vec3, indices: seq<nat>)

  /** The type sets the pickers accept. */
  const PointTypes: set<DataType> := {PointType}
  const ColorSourceTypes: set<DataType> := {PointType, ColorType, ClusterType}
  const ClusterTypes: set<DataType> := {ClusterType}
}
