# Scatterplot view plugin: a Dafny model

This project models the core of the scatterplot view plugin of the ManiVault (formerly HDPS)
visual-analytics host. It is written in Dafny and covers:

- the **plugin** (`ScatterplotPlugin.cpp`), which:
  - extracts 2-D positions from a row-major point buffer, for a full set or a subset;
  - builds per-point highlight flags from the host's selection;
  - writes shape selections back as global indices;
  - ingests point and cluster colour data;
  - min-max normalises a colour dimension.
- the **widget** (`ScatterplotWidget.cpp`/`.h`), which:
  - runs the render-mode and colouring-mode state machine;
  - decides when a density is computed;
  - folds the data bounds;
  - routes the colour-map range to a renderer by mode;
  - replays a colour map once OpenGL is ready.
- the **settings toolbar** (`SettingsAction.cpp`): a greedy collapse layout that expands widgets in descending priority while they fit. Spacer widths depend on the neighbouring widgets' states.
- the **export actions** (`ExportAction.cpp`, `ExportImageAction.cpp`), which:
  - count the enabled dimensions and decide whether export may run;
  - set the trigger label and tooltip;
  - plan the file names;
  - run an export loop that stops at a missing directory and then restores the colouring state;
  - store the default dimensions in the plugin settings.
- the **clustering actions** (`ClusteringAction.cpp`, `ManualClusteringAction.cpp`): enablement rules, appending one cluster built from the current selection, and reset-on-rename.
- the **small actions**:
  - subset source options (`SubsetAction.cpp`);
  - default x/y dimensions (`PositionAction.cpp`);
  - the dataset pickers' type filters and pick/sync handlers (`DatasetsAction.cpp`, `LoadedDatasetsAction.cpp`, `CurrentDatasetAction.cpp`).

Each core `.cpp` file is one Dafny module, named after it, plus two shared modules:

- `Graphics`: vectors, bounds, `FLT_MAX`, and minimum/maximum of a sequence;
- `Datasets`: dataset handles, clusters, and the type filter that every dataset picker installs.

Code that works step by step is imperative Dafny:

- a Qt action whose slots update its members is a `class` whose methods have `modifies` frames;
- a filling loop is a `method` with loop invariants, proved equal to a specification function.

Pure rules (labels, keys, spacer types, option lists) are functions. Lemmas relate them: round trips, injectivity, completeness, monotonicity and maximality.

The source files come from different revisions of the repository. Each file is modelled as it is written, and the revisions are not reconciled:

- the plugin talks to the widget through `widget*` fields of its own class, not through the `Widget` class;
- `setHighlights` takes one argument in the plugin's revision and two in the widget's.

Collaborators whose code is not part of this model are parameters:

- the `Bounds` library operations;
- `Selection::contains`;
- whether a directory exists;
- the next random colour;
- the target picker's context size.

## Model

| member | source | states |
|---|---|---|
| Graphics.Min | src/ScatterplotPlugin.cpp:304-310 | the minimum is an element and bounds every element from below |
| Graphics.Max | src/ScatterplotWidget.cpp:236-238 | the maximum is an element and bounds every element from above |
| Datasets.KeepTypes | src/DatasetsAction.cpp:27-35 | the kept datasets are no more than the offered ones and each has an accepted type |
| Datasets.KeepTypesIsSubsequence | src/DatasetsAction.cpp:30-32 | a type filter never adds, duplicates or reorders datasets |
| Datasets.KeepTypesMembership | src/DatasetsAction.cpp:37-45 | a dataset is kept iff it is offered and its type is accepted |
| Datasets.FilterByType | src/LoadedDatasetsAction.cpp:21-29 | the filter loop's output is a subsequence of the input holding exactly the offered datasets of accepted type |
| ScatterplotPlugin.CellInRange | src/ScatterplotPlugin.cpp:285 | entry `r * numDims + c` of a row-major buffer lies inside the buffer |
| ScatterplotPlugin.Positions | src/ScatterplotPlugin.cpp:259-260 | one position per plotted point: all points of a full set, the index count of a subset |
| ScatterplotPlugin.SubsetGathersFull | src/ScatterplotPlugin.cpp:288-295 | subset position i is the full data's position at `indices[i]` |
| ScatterplotPlugin.CalculatePositions | src/ScatterplotPlugin.cpp:271-296 | the filling loops produce exactly the (xDim, yDim) values of each plotted point's data row |
| ScatterplotPlugin.Highlights | src/ScatterplotPlugin.cpp:321-352 | one flag per plotted point: 1 iff the point's data row is selected, 0 iff it is not |
| ScatterplotPlugin.BuildHighlights | src/ScatterplotPlugin.cpp:327-350 | the zero-fill plus marking loops (full set: mark each selected index; subset: search the selection) yield those flags, given selection indices below the point count |
| ScatterplotPlugin.Hits | src/ScatterplotPlugin.cpp:362-369 | hits are ascending local indices of contained points |
| ScatterplotPlugin.HitsComplete | src/ScatterplotPlugin.cpp:363-368 | every contained point is hit |
| ScatterplotPlugin.CollectHits | src/ScatterplotPlugin.cpp:362-369 | the collecting loop computes exactly the hits |
| ScatterplotPlugin.ToGlobal | src/ScatterplotPlugin.cpp:379-381 | local index k becomes itself for a full set and `indices[k]` for a subset |
| ScatterplotPlugin.TranslateIndices | src/ScatterplotPlugin.cpp:376-381 | the pushing loop produces exactly the translated indices |
| ScatterplotPlugin.SelectThenHighlight | src/ScatterplotPlugin.cpp:321-384 | a shape selection written back and then read as highlights flags exactly the contained points (subset indices distinct) |
| ScatterplotPlugin.UncoveredKeepsDefault | src/ScatterplotPlugin.cpp:223-230 | a point no cluster lists keeps the zero colour |
| ScatterplotPlugin.LastClusterWins | src/ScatterplotPlugin.cpp:224-230 | a point takes the colour of the last cluster listing it |
| ScatterplotPlugin.ProjectClusterColors | src/ScatterplotPlugin.cpp:221-231 | one colour per point, each the last covering cluster's colour, given cluster indices below the point count |
| ScatterplotPlugin.Column | src/ScatterplotPlugin.cpp:306-307 | the colour column holds dimension `colorIndex` of each of the first n rows |
| ScatterplotPlugin.Normalized | src/ScatterplotPlugin.cpp:314-317 | normalising keeps the length |
| ScatterplotPlugin.RunningExtremes | src/ScatterplotPlugin.cpp:304-310 | for finite values the FLT_MAX-seeded running minimum and maximum equal the true extremes |
| ScatterplotPlugin.UnitInterval | src/ScatterplotPlugin.cpp:316 | a value in [lo, hi] normalises into [0, 1] |
| ScatterplotPlugin.NormalizedInUnit | src/ScatterplotPlugin.cpp:315-317 | values in [lo, hi] all normalise into [0, 1] |
| ScatterplotPlugin.NormalizedColumnInUnit | src/ScatterplotPlugin.cpp:302-318 | a non-constant column normalised by its own extremes lies in [0, 1] |
| ScatterplotPlugin.EndPoints | src/ScatterplotPlugin.cpp:316 | lo maps to 0 and hi maps to 1 |
| ScatterplotPlugin.NormalizedColumnReachesEnds | src/ScatterplotPlugin.cpp:302-318 | the normalised column contains both 0 and 1 |
| ScatterplotPlugin.DimOptionsFor | src/ScatterplotPlugin.cpp:175-178 | the picker gets the names iff there is one name per dimension, else the count |
| ScatterplotPlugin.ScalarDimOptionsFor | src/ScatterplotPlugin.cpp:172-195 | the colour-dimension picker follows the source data of a derived set and the set itself otherwise |
| ScatterplotPlugin.Plugin.constructor | src/ScatterplotPlugin.cpp:30-53 | no current dataset, no points, nothing handed to the widget |
| ScatterplotPlugin.Plugin.UpdateData | src/ScatterplotPlugin.cpp:237-269 | nothing changes unless initialised, a dataset is current and both dimensions are >= 0; otherwise point count and positions are recomputed and handed to the widget |
| ScatterplotPlugin.Plugin.DataChanged | src/ScatterplotPlugin.cpp:60-66 | only a change to the current dataset, with refreshing enabled, recomputes the count and positions; in every other case nothing changes, and the pickers, selection and widget buffers other than the positions always stay |
| ScatterplotPlugin.Plugin.InitDimOptions | src/ScatterplotPlugin.cpp:172-195 | both pickers are initialised from the set (or its source) and nothing else changes |
| ScatterplotPlugin.Plugin.OnDataInput | src/ScatterplotPlugin.cpp:155-198 | the dropped set becomes current; only a "Points" set initialises both pickers, and only with refreshing enabled are the positions recomputed; highlights, scalars, colours and notifications stay |
| ScatterplotPlugin.Plugin.DataSetPicked | src/ScatterplotPlugin.cpp:99-130 | the pickers are re-initialised; the positions are recomputed iff refreshing is enabled and otherwise stay; highlights, scalars, colours and notifications stay |
| ScatterplotPlugin.Plugin.UpdateSelection | src/ScatterplotPlugin.cpp:321-353 | the widget receives exactly the highlight flags of the selection |
| ScatterplotPlugin.Plugin.SelectionChanged | src/ScatterplotPlugin.cpp:73-90 | the highlights are refreshed iff the notified name is the owner of the plot's selection (the source's name for a derived set, the set's own otherwise); nothing else ever changes |
| ScatterplotPlugin.Plugin.SelectionOwner | src/ScatterplotPlugin.cpp:375-383 | the owner of the selection is the one name whose notification concerns the plot |
| ScatterplotPlugin.Plugin.MakeSelection | src/ScatterplotPlugin.cpp:355-384 | a no-op with no current dataset; otherwise the selection is replaced by the global indices of the hits and one notification naming the selection's owner is sent; nothing else changes |
| ScatterplotPlugin.Plugin.OnColorDataInput | src/ScatterplotPlugin.cpp:200-235 | point data of matching size is copied as scalars (else empty) and the colours stay; cluster data gives one colour per point, the last covering cluster winning, and the scalars stay; then the plot refreshes; pickers, highlights and notifications stay |
| ScatterplotPlugin.Plugin.CalculateScalars | src/ScatterplotPlugin.cpp:298-319 | untouched for a negative colour index, otherwise the normalised column (non-constant column required) |
| ScatterplotPlugin.FillColumn | src/ScatterplotPlugin.cpp:304-312 | the first loop writes the column in place and returns its seeded running extremes |
| ScatterplotPlugin.NormalizeAll | src/ScatterplotPlugin.cpp:314-317 | the second loop replaces every entry by its normalised value |
| ScatterplotPlugin.DropThenSelect | src/ScatterplotPlugin.cpp:155-384 | dropping a set under any non-empty name then selecting with a shape highlights exactly the contained plotted points |
| ScatterplotWidget.DataBounds | src/ScatterplotWidget.cpp:20-33 | the `Bounds::Max` seed for no points, otherwise every point lies within left/right and bottom/top |
| ScatterplotWidget.DataBoundsAttained | src/ScatterplotWidget.cpp:24-30 | for finite points each side is the least/greatest coordinate actually present |
| ScatterplotWidget.Widget.constructor | src/ScatterplotWidget.h:155-158 | not initialised, SCATTERPLOT mode, Constant colouring, no signals, no density computed |
| ScatterplotWidget.Widget.GetBounds | src/ScatterplotWidget.h:91-93 | returns the stored bounds |
| ScatterplotWidget.Widget.ComputeDensity | src/ScatterplotWidget.cpp:150-159 | one density computation bracketed by one start and one end signal |
| ScatterplotWidget.Widget.SetRenderMode | src/ScatterplotWidget.cpp:101-128 | the current mode is a no-op; a change stores it, signals once and computes density once (one start and one end signal) iff the new mode is DENSITY or LANDSCAPE; nothing else changes |
| ScatterplotWidget.Widget.SetColoringMode | src/ScatterplotWidget.cpp:135-143 | the same mode is a no-op; a change stores it and signals once; nothing else changes |
| ScatterplotWidget.Widget.SetData | src/ScatterplotWidget.cpp:164-199 | minimum size, square and 10% expansion are applied to the data bounds; both renderers get them and the points; density is computed without signals iff the mode needs it; nothing else changes |
| ScatterplotWidget.Widget.SetHighlights | src/ScatterplotWidget.cpp:213-218 | the point renderer stores the flags and selected count |
| ScatterplotWidget.Widget.SetScalars | src/ScatterplotWidget.cpp:220-225 | the point renderer stores the colour scalars |
| ScatterplotWidget.Widget.SetColors | src/ScatterplotWidget.cpp:227-233 | colours (one per loaded point) are stored and the scalar effect switched off |
| ScatterplotWidget.Widget.SetPointSizeScalars | src/ScatterplotWidget.cpp:235-241 | the point size becomes the largest size scalar (non-empty vector required) |
| ScatterplotWidget.Widget.SetPointOpacityScalars | src/ScatterplotWidget.h:81-85 | normalised opacity scalars are stored |
| ScatterplotWidget.Widget.GetColorMapRange | src/ScatterplotWidget.cpp:271-285 | the point renderer's range in SCATTERPLOT, the density renderer's in LANDSCAPE, zero in DENSITY |
| ScatterplotWidget.Widget.SetColorMapRange | src/ScatterplotWidget.cpp:287-307 | the range reaches only the renderer of the current mode, and neither in DENSITY |
| ScatterplotWidget.Widget.SetColorMap | src/ScatterplotWidget.cpp:603-617 | the image is always stored and reaches the renderers only when initialised |
| ScatterplotWidget.Widget.InitializeGL | src/ScatterplotWidget.cpp:495-498 | initialised is set, the colour effect chosen, the stored image replayed to both renderers and one initialised signal sent; nothing else changes |
| ScatterplotWidget.Widget.UpdatePixelRatio | src/ScatterplotWidget.cpp:619-635 | only a changed ratio triggers a resize |
| ScatterplotWidget.ColorMapRangeRoundTrip | src/ScatterplotWidget.cpp:271-307 | a range set is read back unchanged in SCATTERPLOT and LANDSCAPE and as zero in DENSITY |
| ScatterplotWidget.ColorMapReplay | src/ScatterplotWidget.cpp:603-617 | a colour map set before initialisation reaches no renderer until `initializeGL`, then both |
| ScatterplotWidget.DensityComputationsForSwitches | src/ScatterplotWidget.cpp:101-128 | two mode requests compute density once per real change into a density mode and signal once per real change |
| SettingsAction.SpacerTypeOf | src/SettingsAction.cpp:200-203 | Spacer iff both neighbours are collapsed |
| SettingsAction.SpacerWidth | src/SettingsAction.cpp:220-235 | 14 for Divider, 6 for Spacer |
| SettingsAction.SpacerTypes | src/SettingsAction.cpp:172-179 | one spacer fewer than widgets, spacer j typed from widgets j and j + 1 |
| SettingsAction.ComputeWidth | src/SettingsAction.cpp:133-150 | the width loops compute 2 * margin + widget hints + spacer widths |
| SettingsAction.InsertionPoint | src/SettingsAction.cpp:152-156 | the insertion place splits the order into priorities >= p and < p |
| SettingsAction.InsertExtendsOrder | src/SettingsAction.cpp:152-156 | inserting widget i keeps the order a permutation of the widgets |
| SettingsAction.InsertKeepsSorted | src/SettingsAction.cpp:154-156 | inserting at the insertion place keeps descending priority |
| SettingsAction.SortByPriority | src/SettingsAction.cpp:152-156 | the order is a permutation of all widgets in descending priority |
| SettingsAction.Expand | src/SettingsAction.cpp:128-131 | exactly the chosen widgets are Standard, all others Collapsed |
| SettingsAction.ComputeLayoutStates | src/SettingsAction.cpp:158-167 | a prefix of the priority order is expanded, the first over-wide expansion is reverted, and the width fits when anything is expanded |
| SettingsAction.ExpandedRowFits | src/SettingsAction.cpp:158-167 | if the greedy loop leaves any widget expanded, the row fits the available width |
| SettingsAction.WidgetsWidthMonotone | src/SettingsAction.cpp:136-137 | expanding widgets never narrows their summed hints |
| SettingsAction.SpacersWidthMonotone | src/SettingsAction.cpp:139-147 | expanding widgets never narrows the spacers |
| SettingsAction.LayoutWidthMonotone | src/SettingsAction.cpp:133-150 | the layout width is monotone in expansion |
| SettingsAction.GreedyIsMaximal | src/SettingsAction.cpp:158-167 | every longer prefix of the priority order would exceed the available width |
| SettingsAction.Toolbar.constructor | src/SettingsAction.cpp:62-96 | an empty toolbar with the layout margin |
| SettingsAction.Toolbar.AddStateWidget | src/SettingsAction.cpp:114-124 | the widget is appended, with a spacer before every widget but the first |
| SettingsAction.Toolbar.UpdateLayout | src/SettingsAction.cpp:126-180 | the states are the greedy outcome for the priority order and the spacers match them |
| SettingsAction.Toolbar.EventFilter | src/SettingsAction.cpp:99-112 | only a resize re-runs the layout |
| SettingsAction.NewSettingsToolbar | src/SettingsAction.cpp:76-82 | seven widgets in the fixed order with priorities 4, 7, 10, 8, 3, 0, 2 and their size hints, and six spacers |
| SettingsAction.BuildSettingsToolbar | src/SettingsAction.cpp:62-112 | seven widgets with priorities 4, 7, 10, 8, 3, 0, 2, six spacers, and a fitting width when anything is expanded |
| ExportAction.CountEnabled | src/ExportAction.cpp:257-264 | the count is at most the flags and zero iff no flag is set |
| ExportAction.EnabledIndices | src/ExportAction.cpp:190-192 | the visited dimensions: as many as the count, each enabled, strictly ascending |
| ExportAction.EnabledIndicesComplete | src/ExportAction.cpp:190-192 | a dimension is visited iff it is enabled |
| ExportAction.MayExport | src/ExportAction.cpp:243-255 | true iff the prefix is non-empty, the directory is valid and some dimension is enabled |
| ExportAction.DigitChar | src/ExportAction.cpp:269 | the decimal digit character of a value below 10 |
| ExportAction.NatToString | src/ExportAction.cpp:269 | a non-empty digit string without leading zero |
| ExportAction.NatToStringRoundTrip | src/ExportAction.cpp:269 | reading the digits back gives the number |
| ExportAction.NatToStringInjective | src/ExportAction.cpp:269 | different counts print differently |
| ExportAction.TriggerText | src/ExportAction.cpp:269 | "Nothing to export" iff the count is 0, else "Export (N)" |
| ExportAction.TriggerTextDeterminesCount | src/ExportAction.cpp:269 | the label determines the count |
| ExportAction.TriggerTooltip | src/ExportAction.cpp:270 | the no-images text iff the count is 0, else "Export N image(s) to disk", plural iff N >= 2 |
| ExportAction.ExportedMessage | src/ExportAction.cpp:230 | "Exported N image(s)", plural iff N > 1 |
| ExportAction.ScaleFactor | src/ExportAction.cpp:16-25 | between 1/8 and 8, below 1 iff the index is below 3, 1 iff the index is 3, strictly increasing |
| ExportAction.FileName | src/ExportAction.cpp:194 | prefix, then the dimension name, then ".png" |
| ExportAction.ImagePath | src/ExportAction.cpp:200 | directory, '/', file name |
| ExportAction.ImagePathsDistinct | src/ExportAction.cpp:194-200 | different dimension names never share an image path |
| ExportAction.Planned | src/ExportAction.cpp:190-218 | one planned screenshot per enabled dimension |
| ExportAction.PlannedFollowsEnabled | src/ExportAction.cpp:190-218 | the k-th screenshot is of the k-th enabled dimension, at its path, coloured by dimension |
| ExportAction.PlannedPrefix | src/ExportAction.cpp:190-221 | the plan for the first j flags is a prefix of the whole plan |
| ExportAction.ExportedCount | src/ExportAction.cpp:202-206 | the export stops at the first missing directory |
| ExportAction.ExportedCountStopsAt | src/ExportAction.cpp:202-206 | when the n-th directory check is the first to fail, exactly n images are written |
| ExportAction.RunExport | src/ExportAction.cpp:190-221 | the loop writes exactly the planned screenshots up to the first missing directory, counts them, and aborts iff it stopped early |
| ExportAction.StopsAtMissingDirectory | src/ExportAction.cpp:202-206 | a missing directory at the n-th enabled dimension ends the export with n images |
| ExportAction.Action.constructor | src/ExportAction.cpp:27-69 | empty prefix, "Export" trigger enabled, no dimensions |
| ExportAction.Action.UpdateExportTrigger | src/ExportAction.cpp:266-271 | label, tooltip and enabled follow the count and MayExport |
| ExportAction.Action.SetPrefix | src/ExportAction.cpp:142 | a prefix change refreshes the trigger's label, tooltip and enabled flag; nothing else changes |
| ExportAction.Action.SetDirectory | src/ExportAction.cpp:143 | a directory change refreshes the trigger's label, tooltip and enabled flag; nothing else changes |
| ExportAction.Action.UpdateDimensionsPicker | src/ExportAction.cpp:233-241 | the picker gets the dimensions and flags, and the trigger's label, tooltip and enabled flag follow them; nothing else changes |
| ExportAction.Action.PositionDatasetChanged | src/ExportAction.cpp:93-103 | an invalid dataset changes nothing; a valid one sets prefix "name_" and the picker's object name and refreshes the trigger; nothing else changes |
| ExportAction.Action.ExportImages | src/ExportAction.cpp:165-231 | colour-by forced to 1 then restored; planned screenshots up to the first missing directory; error status iff aborted; message; trigger disabled then re-enabled |
| ExportAction.Action.ExportCancelTriggered | src/ExportAction.cpp:121-134 | trigger 0 runs the export with ExportImages' full outcome (screenshots, status, message, range, restored indices); any other trigger changes nothing |
| ExportImageAction.EnabledDimensionsKey | src/ExportImageAction.cpp:321-324 | "Export/Image/EnabledDimensions" + "/" + the dataset name |
| ExportImageAction.EnabledDimensionsKeyInjective | src/ExportImageAction.cpp:321-324 | different datasets get different keys |
| ExportImageAction.StoredFlags | src/ExportImageAction.cpp:311-319 | reading a stored list back gives one flag per item |
| ExportImageAction.DefaultDimensionsList | src/ExportImageAction.cpp:313-316 | one boolean per dimension, in order, reading back as the enabled flags |
| ExportImageAction.Action.UpdateExportTrigger | src/ExportImageAction.cpp:304-309 | label, tooltip and enabled follow the count and MayExport |
| ExportImageAction.Action.UpdateDimensionsPicker | src/ExportImageAction.cpp:266-279 | the picker gets the dimensions, the default-dimensions text names the dataset, and the trigger's label, tooltip and enabled flag follow the flags |
| ExportImageAction.Action.constructor | src/ExportImageAction.cpp:35-161 | prefix "name_", the stored directory, the picker's dimensions and set-defaults text, and the trigger's label, tooltip and enabled flag |
| ExportImageAction.Action.SetPrefix | src/ExportImageAction.cpp:148 | a prefix change refreshes the trigger's label, tooltip and enabled flag |
| ExportImageAction.Action.SetDirectory | src/ExportImageAction.cpp:149 | a directory change refreshes the trigger's label, tooltip and enabled flag (the settings write that also follows a change is left out) |
| ExportImageAction.Action.SetDefaultDimensions | src/ExportImageAction.cpp:311-319 | the flags are stored under the dataset's key and no other setting changes |
| ExportImageAction.Action.ExportImages | src/ExportImageAction.cpp:174-264 | the same export loop, colouring restored afterwards |
| ExportImageAction.Action.ExportCancelTriggered | src/ExportImageAction.cpp:114-129 | trigger 0 runs the export with ExportImages' full outcome; any other trigger changes nothing |
| ClusteringAction.Action.constructor | src/ClusteringAction.cpp:1-56 | no target, empty name, and all four flags follow the read-only rules |
| ClusteringAction.Action.UpdateActionsReadOnly | src/ClusteringAction.cpp:109-120 | group iff valid with a selection; name and colour iff a target; add iff the name is non-empty |
| ClusteringAction.Action.PositionChanged | src/ClusteringAction.cpp:122-127 | a position change is stored and all four flags follow the read-only rules |
| ClusteringAction.Action.NameChanged | src/ClusteringAction.cpp:122-127 | a name change is stored and all four flags follow the read-only rules |
| ClusteringAction.Action.OfferDatasets | src/ClusteringAction.cpp:57-65 | exactly the cluster datasets, in order (the KeepTypes filter) |
| ClusteringAction.Action.DatasetNameChanged | src/ClusteringAction.cpp:67-69 | create is enabled iff the name is non-empty |
| ClusteringAction.Action.CreateClusterDataset | src/ClusteringAction.cpp:71-77 | a new empty cluster dataset with the typed name |
| ClusteringAction.Action.DatasetPicked | src/ClusteringAction.cpp:79-81 | the picked dataset becomes the target and colour dataset, and all four flags follow the read-only rules |
| ClusteringAction.Action.AddCluster | src/ClusteringAction.cpp:83-107 | a no-op, flags included, without a valid position or a target; otherwise exactly one cluster (name, colour, selection) is appended, others unchanged, notified, name reset, and all four flags follow the rules |
| ManualClusteringAction.Action.UpdateActions | src/ManualClusteringAction.cpp:29-38 | target iff selection and context >= 2; name/colour iff selection; add iff selection and name |
| ManualClusteringAction.Action.constructor | src/ManualClusteringAction.cpp:1-42 | empty name, no cluster dataset, and all four flags follow the rules |
| ManualClusteringAction.Action.SelectionChanged | src/ManualClusteringAction.cpp:82 | a selection change is stored and all four flags follow the rules |
| ManualClusteringAction.Action.NameChanged | src/ManualClusteringAction.cpp:40-42 | a name change is stored and all four flags follow the rules |
| ManualClusteringAction.Action.AddCluster | src/ManualClusteringAction.cpp:44-62 | a no-op, flags included, unless points and cluster dataset are valid; otherwise one cluster appended, notified, name reset, and all four flags follow the rules |
| ManualClusteringAction.Action.PointsRenamed | src/ManualClusteringAction.cpp:64-68 | target, name and cluster dataset are reset and all four flags follow the rules |
| ManualClusteringAction.Action.UpdateTargets | src/ManualClusteringAction.cpp:87-93 | the target picker lists the cluster datasets and shows the current one |
| ManualClusteringAction.Action.ColorsRenamed | src/ManualClusteringAction.cpp:70-80 | the reference holds the new name; an empty name stops the handler with the flags unchanged; otherwise only a cluster dataset becomes the target, and the four flags and the targets refresh |
| ManualClusteringAction.Action.CreateDefaultClustersSet | src/ManualClusteringAction.cpp:95-103 | a no-op, flags included, with invalid points or an existing cluster dataset; otherwise a new empty set is created, the colour reference is renamed to it, and its rename handler (cpp:70-80) makes it the cluster dataset and the picker's current target with all four flags refreshed; afterwards a cluster dataset is always referenced |
| ManualClusteringAction.CreateThenAdd | src/ManualClusteringAction.cpp:44-62 | creating the default set and then adding a cluster puts exactly that cluster in the new set, and a second creation changes no set |
| SubsetAction.SourceDataOptions | src/SubsetAction.cpp:38-47 | none for an empty name; "From: name" first; the source option second iff the source differs |
| SubsetAction.Action.constructor | src/SubsetAction.cpp:10-57 | an empty name and a selection state taken over; the options are built for the current dataset and the enabled flag is set, as both handlers run at construction |
| SubsetAction.Action.UpdateActions | src/SubsetAction.cpp:21-24 | enabled iff valid with a selection |
| SubsetAction.Action.SelectionChanged | src/SubsetAction.cpp:26 | a selection change re-applies the rule |
| SubsetAction.Action.CreateSubset | src/SubsetAction.cpp:28-30 | from source data iff the current option is 1, with the typed name |
| SubsetAction.Action.CurrentDatasetChanged | src/SubsetAction.cpp:32-51 | a no-op for an invalid dataset; otherwise the options are rebuilt and choosing is enabled iff there are two |
| PositionAction.DefaultYIndex | src/PositionAction.cpp:48-52 | 1 with at least two dimensions, else 0; a valid index whenever there is a dimension |
| PositionAction.Action.constructor | src/PositionAction.cpp:1-35 | both pickers at 0 and in step with the plugin |
| PositionAction.Action.XDimensionPicked | src/PositionAction.cpp:26-29 | the x pick reaches the plugin unchanged |
| PositionAction.Action.YDimensionPicked | src/PositionAction.cpp:31-34 | the y pick reaches the plugin unchanged |
| PositionAction.Action.PositionDatasetChanged | src/PositionAction.cpp:37-53 | x current and default 0; y current and default DefaultYIndex; the plugin follows |
| PositionAction.Action.GetDimensionX | src/PositionAction.cpp:72-75 | the x picker's index, which the plugin also holds; nothing changes |
| PositionAction.Action.GetDimensionY | src/PositionAction.cpp:77-80 | the y picker's index, which the plugin also holds; nothing changes |
| DatasetsAction.Action.constructor | src/DatasetsAction.cpp:1-50 | pickers in step, not connected |
| DatasetsAction.Action.OfferDatasets | src/DatasetsAction.cpp:27-45 | exactly the point datasets for position and the point/colour/cluster datasets for colour, each in order (the KeepTypes filter) |
| DatasetsAction.Action.PositionDatasetChanged | src/DatasetsAction.cpp:56-58 | when wired, the position picker shows the plugin's dataset |
| DatasetsAction.Action.PositionPicked | src/DatasetsAction.cpp:47-54 | when wired, the pick becomes the plugin's position dataset; unwired, nothing changes |
| DatasetsAction.Action.ColoringColorChanged | src/DatasetsAction.cpp:64-66 | when wired, the colour picker shows the colouring dataset |
| DatasetsAction.Action.ColorPicked | src/DatasetsAction.cpp:60-62 | when wired, the pick is forwarded to the colouring action; unwired, nothing changes |
| DatasetsAction.Action.ConnectToPublicAction | src/DatasetsAction.cpp:69-84 | a non-datasets public action is ignored; pickers linked only when recursive |
| DatasetsAction.Action.DisconnectFromPublicAction | src/DatasetsAction.cpp:86-97 | a no-op when not connected; pickers unlinked only when recursive |
| LoadedDatasetsAction.Action.constructor | src/LoadedDatasetsAction.cpp:1-40 | pickers in step |
| LoadedDatasetsAction.Action.OfferDatasets | src/LoadedDatasetsAction.cpp:21-39 | exactly the point datasets and the point/colour/cluster datasets, in order (the KeepTypes filter) |
| LoadedDatasetsAction.Action.PositionDatasetChanged | src/LoadedDatasetsAction.cpp:45-47 | the position picker shows the plugin's dataset |
| LoadedDatasetsAction.Action.PositionPicked | src/LoadedDatasetsAction.cpp:41-43 | the pick becomes the plugin's position dataset and the picker follows |
| LoadedDatasetsAction.Action.ColoringColorChanged | src/LoadedDatasetsAction.cpp:54-56 | the colour picker shows the colouring dataset |
| LoadedDatasetsAction.Action.ColorPicked | src/LoadedDatasetsAction.cpp:50-52 | the pick is forwarded to the colouring action and the picker follows |
| CurrentDatasetAction.Action.constructor | src/CurrentDatasetAction.cpp:1-25 | the picker is in step with the plugin |
| CurrentDatasetAction.Action.OfferDatasets | src/CurrentDatasetAction.cpp:16-24 | exactly the point datasets, in order (the KeepTypes filter) |
| CurrentDatasetAction.Action.PositionDatasetChanged | src/CurrentDatasetAction.cpp:30-32 | the picker shows the plugin's dataset |
| CurrentDatasetAction.Action.DatasetPicked | src/CurrentDatasetAction.cpp:26-28 | the pick becomes the plugin's position dataset and the picker follows |

## Left out

- OpenGL and rendering are not modelled: `resizeGL`, `paintGL`, `cleanup`, matrices, and the framebuffer and disk work of `createScreenshot`. The renderers are records of what they were last handed, plus counters.
- ScatterplotPlugin.Plugin.CalculateScalars: requires a non-constant column. It excludes two cases: with no points the source normalises by the range -FLT_MAX - FLT_MAX, which overflows; with all values equal it divides by a zero range, which gives NaN. Neither case is modelled.
- Floating point is not modelled. Positions and scalars are unbounded reals; NaN, rounding and single-precision overflow are not. Min/max are stated for finite values.
- The export size calculations are not modelled: target width and height from the scale factor, the widget size and the aspect ratio. Only the factor table is.
- Random colours are not generated. The next colour is a parameter (`nextColor`, `initialColor`).
- Settings persistence is modelled only for the default dimension flags. The output-directory and other settings are not modelled; `toVariantMap`/`fromVariantMap` are not modelled.
- Status progress and abort texts, the wait cursor and `processEvents` are not modelled. Only the status kind and the final "Exported N image(s)" message are.
- Directory existence is an input rather than a file-system query: one boolean per enabled dimension in the export loop, and one boolean for the trigger. `DirectoryPickerAction::isValid` is the `directoryValid` field.
- Screenshot creation is recorded in a ghost log of planned screenshots. The colour dimension chosen for each screenshot appears only as the screenshot's dimension name.
- Fixed-range override during export is modelled only as the colour-map range the last screenshot leaves behind.
- The renderers are assumed to store a colour-map range as (min, max, max - min). The renderer code is not part of this model.
- `std::sort` is not stable. SettingsAction.SortByPriority orders equal priorities stably, which is one of the orders `std::sort` may produce.
- The `std::uint32_t` width sum and the `int` index arithmetic are modelled on unbounded naturals, without wrap-around.
- `Bounds::ensureMinimumSize`, `makeSquare`, `expand` and `Selection::contains` are uninterpreted functions. Their bodies are not part of this model.
- The return value of `eventFilter` (the base class's answer) is not modelled.
- SettingsAction.Toolbar.AddStateWidget: the new state widget's initial state is a parameter, because the state-widget class is not part of this model. NewSettingsToolbar adds every settings widget as Standard, and the first UpdateLayout replaces every state.
- ManualClusteringAction: the plugin's selected-point count is modelled as the size of the selection list. The target picker's context size is an input.
- `OptionAction::setCurrentText` is taken to store the text as given.
- The connect/disconnect bookkeeping of the base `GroupAction` is modelled only as a `connected` flag.
- Signals that a picker's `setCurrentDataset` may emit back are not modelled.
- ExportImageAction's scale-factor table holds the same constants as ExportAction's and is shared through ExportAction.ScaleFactor.
- The dataset pickers in DatasetsAction, LoadedDatasetsAction and CurrentDatasetAction assume the host emits the dataset's `changed` signal after every assignment. Their picked handlers therefore also run the changed handler.
- SubsetAction.Action.CreateSubset: reads the source-data picker's current index `sourceIndex` as given; the option widget sets it and is not part of this model.
- ManualClusteringAction.Action.CreateDefaultClustersSet: assumes that renaming the colour-dataset reference fires its rename handler at once. It also takes the host's new set name and its list of cluster-dataset names as parameters.
- The plugin and widget source files come from different revisions and are not reconciled. In particular the plugin's `getSelection` and one-argument `setHighlights` are modelled through the plugin's own `widget*` fields.
