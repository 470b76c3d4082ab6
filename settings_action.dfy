/** The settings toolbar of the scatterplot view: a row of state widgets (each shown collapsed
    or in its standard form) separated by spacer widgets. On every resize the toolbar starts
    from all widgets collapsed and expands them in descending priority for as long as the
    whole row still fits the available width. */
module SettingsAction {

  datatype State = Collapsed | Standard

  datatype SpacerType = Divider | Spacer

  /** `SpacerWidget::getType`: a plain spacer between two collapsed widgets, a divider otherwise. */
  function SpacerTypeOf(left: State, right: State): (t: SpacerType)
    ensures t == Spacer <==> left == Collapsed && right == Collapsed
  {
    if left == Collapsed && right == Collapsed then Spacer else Divider
  }

  /** `SpacerWidget::getWidth`: 14 pixels for a divider, 6 for a plain spacer. */
  function SpacerWidth(t: SpacerType): (w: nat)
    ensures t == Divider ==> w == 14
    ensures t == Spacer ==> w == 6
  {
    match t
    case Divider => 14
    case Spacer => 6
  }

  /** The margin of the outer layout (`_layout.setMargin(4)`). */
  const LayoutMargin: nat := 4

  /** A state widget: its priority and the width of its size hint in either state. */
  datatype StateWidget = StateWidget(priority: int, collapsedWidth: nat, standardWidth: nat)

  function HintWidth(w: StateWidget, s: State): nat {
    if s == Standard then w.standardWidth else w.collapsedWidth
  }

  /** One spacer sits between each pair of neighbouring state widgets. */
  function SpacerCount(n: nat): nat {
    if n == 0 then 0 else n - 1
  }

  /** Sum of the size-hint widths of the widgets, each in its state. */
  function WidgetsWidth(widgets: seq<StateWidget>, states: seq<State>): nat
    requires |states| == |widgets|
  {
    if widgets == [] then 0
    else
      var n := |widgets|;
      WidgetsWidth(widgets[..n - 1], states[..n - 1]) + HintWidth(widgets[n - 1], states[n - 1])
  }

  /** Sum of the spacer widths, spacer `j` typed from the states of widgets `j` and `j + 1`. */
  function SpacersWidth(states: seq<State>): nat {
    if |states| < 2 then 0
    else
      var n := |states|;
      SpacersWidth(states[..n - 1]) + SpacerWidth(SpacerTypeOf(states[n - 2], states[n - 1]))
  }

  /** The width of the toolbar for the given states: both margins, every widget and every spacer. */
  function LayoutWidth(margin: nat, widgets: seq<StateWidget>, states: seq<State>): nat
    requires |states| == |widgets|
  {
    2 * margin + WidgetsWidth(widgets, states) + SpacersWidth(states)
  }

  /** The type of every spacer, from the states of its two neighbours. */
  function SpacerTypes(states: seq<State>): (types: seq<SpacerType>)
    ensures |types| == SpacerCount(|states|)
    ensures forall j :: 0 <= j < |types| ==> types[j] == SpacerTypeOf(states[j], states[j + 1])
  {
    seq(SpacerCount(|states|), j requires 0 <= j < SpacerCount(|states|) => SpacerTypeOf(states[j], states[j + 1]))
  }

  /** The `getWidth` lambda of `updateLayout`: start from twice the margin, add every widget's
      size hint in its state, then every spacer's width. */
  method ComputeWidth(margin: nat, widgets: seq<StateWidget>, states: seq<State>) returns (width: nat)
    requires |states| == |widgets|
    ensures width == LayoutWidth(margin, widgets, states)
  {
    var n := |widgets|;
    width := 2 * margin;
    for i := 0 to n
      invariant width == 2 * margin + WidgetsWidth(widgets[..i], states[..i])
    {
      assert widgets[..i + 1][..i] == widgets[..i] && states[..i + 1][..i] == states[..i];
      width := width + HintWidth(widgets[i], states[i]);
    }
    assert widgets[..n] == widgets && states[..n] == states;
    if n > 0 {
      for j := 0 to n - 1
        invariant width == 2 * margin + WidgetsWidth(widgets, states) + SpacersWidth(states[..j + 1])
      {
        assert states[..j + 2][..j + 1] == states[..j + 1];
        width := width + SpacerWidth(SpacerTypeOf(states[j], states[j + 1]));
      }
      assert states[..n] == states;
    }
  }

  // ---------------------------------------------------------------------------
  // Priority order
  // ---------------------------------------------------------------------------

  /** `order` lists every widget position below `n` exactly once. */
  predicate IsOrderOf(order: seq<nat>, n: nat) {
    |order| == n &&
    (forall k :: 0 <= k < |order| ==> order[k] < n) &&
    (forall w :: 0 <= w < n ==> w in order) &&
    (forall k, l :: 0 <= k < l < |order| ==> order[k] != order[l])
  }

  /** Widgets earlier in `order` never have a lower priority. */
  predicate SortedByPriority(widgets: seq<StateWidget>, order: seq<nat>)
    requires forall k :: 0 <= k < |order| ==> order[k] < |widgets|
  {
    forall k, l :: 0 <= k < l < |order| ==> widgets[order[k]].priority >= widgets[order[l]].priority
  }

  /** First position of a sorted order whose widget has a lower priority than `p` (the end if
      there is none): everything before it has priority at least `p`, everything from it on
      less than `p`. */
  method InsertionPoint(widgets: seq<StateWidget>, order: seq<nat>, p: int) returns (j: nat)
    requires forall k :: 0 <= k < |order| ==> order[k] < |widgets|
    requires SortedByPriority(widgets, order)
    ensures j <= |order|
    ensures forall k :: 0 <= k < j ==> widgets[order[k]].priority >= p
    ensures forall k :: j <= k < |order| ==> widgets[order[k]].priority < p
  {
    j := 0;
    while j < |order| && widgets[order[j]].priority >= p
      invariant 0 <= j <= |order|
      invariant forall k :: 0 <= k < j ==> widgets[order[k]].priority >= p
    {
      j := j + 1;
    }
  }

  /** Inserting the next position `i` anywhere into an order of the positions below `i` gives
      an order of the positions below `i + 1`. */
  lemma InsertExtendsOrder(order: seq<nat>, i: nat, j: nat)
    requires IsOrderOf(order, i) && j <= |order|
    ensures IsOrderOf(order[..j] + [i] + order[j..], i + 1)
  {
    var next := order[..j] + [i] + order[j..];
    assert forall k :: 0 <= k < j ==> next[k] == order[k];
    assert forall k :: j < k < |next| ==> next[k] == order[k - 1];
    forall w | 0 <= w < i
      ensures w in next
    {
      assert w in order;
      var k :| 0 <= k < |order| && order[k] == w;
      if k < j {
        assert next[k] == w;
      } else {
        assert next[k + 1] == w;
      }
    }
    assert next[j] == i;
  }

  /** Inserting a widget at its insertion point keeps the order sorted by priority. */
  lemma InsertKeepsSorted(widgets: seq<StateWidget>, order: seq<nat>, i: nat, j: nat)
    requires i < |widgets| && j <= |order|
    requires forall k :: 0 <= k < |order| ==> order[k] < |widgets|
    requires SortedByPriority(widgets, order)
    requires forall k :: 0 <= k < j ==> widgets[order[k]].priority >= widgets[i].priority
    requires forall k :: j <= k < |order| ==> widgets[order[k]].priority < widgets[i].priority
    ensures SortedByPriority(widgets, order[..j] + [i] + order[j..])
  {
    var next := order[..j] + [i] + order[j..];
    assert forall k :: 0 <= k < j ==> next[k] == order[k];
    assert forall k :: j < k < |next| ==> next[k] == order[k - 1];
    assert next[j] == i;
  }

  /** The `std::sort` of `updateLayout` by descending priority, as an insertion sort of the widget
      positions (it keeps equal priorities in toolbar order, which is one of the orders the
      unstable sort may produce). */
  method SortByPriority(widgets: seq<StateWidget>) returns (order: seq<nat>)
    ensures IsOrderOf(order, |widgets|)
    ensures SortedByPriority(widgets, order)
  {
    order := [];
    for i := 0 to |widgets|
      invariant IsOrderOf(order, i)
      invariant SortedByPriority(widgets, order)
    {
      var j := InsertionPoint(widgets, order, widgets[i].priority);
      InsertExtendsOrder(order, i, j);
      InsertKeepsSorted(widgets, order, i, j);
      order := order[..j] + [i] + order[j..];
    }
  }

  // ---------------------------------------------------------------------------
  // Greedy expansion
  // ---------------------------------------------------------------------------

  /** The states with exactly the widgets listed in `chosen` expanded. */
  function Expand(n: nat, chosen: seq<nat>): (states: seq<State>)
    ensures |states| == n
    ensures forall i :: 0 <= i < n ==> (states[i] == Standard <==> i in chosen)
  {
    seq(n, i requires 0 <= i < n => if i in chosen then Standard else Collapsed)
  }

  /** The outcome of the greedy loop over `order`: the first `expanded` widgets of the order are
      expanded and nothing else; every expansion it kept fitted the available width, and (unless
      all were expanded) expanding the next one did not fit. */
  predicate GreedyOutcome(margin: nat, widgets: seq<StateWidget>, order: seq<nat>, available: nat,
                          states: seq<State>, expanded: nat)
    requires IsOrderOf(order, |widgets|)
  {
    expanded <= |widgets| &&
    states == Expand(|widgets|, order[..expanded]) &&
    (forall k :: 1 <= k <= expanded ==> LayoutWidth(margin, widgets, Expand(|widgets|, order[..k])) <= available) &&
    (expanded < |widgets| ==> LayoutWidth(margin, widgets, Expand(|widgets|, order[..expanded + 1])) > available)
  }

  /** Whenever the greedy loop leaves any widget expanded, the row fits the available width. */
  lemma ExpandedRowFits(margin: nat, widgets: seq<StateWidget>, order: seq<nat>, available: nat,
                        states: seq<State>, expanded: nat)
    requires IsOrderOf(order, |widgets|)
    requires GreedyOutcome(margin, widgets, order, available, states, expanded)
    requires Standard in states
    ensures LayoutWidth(margin, widgets, states) <= available
  {
    var i :| 0 <= i < |states| && states[i] == Standard;
    assert i in order[..expanded];
  }

  /** The greedy loop of `updateLayout`: all widgets start collapsed; each widget in priority
      order is expanded, and the first expansion that makes the row wider than `available` is
      reverted and ends the loop. */
  method ComputeLayoutStates(margin: nat, widgets: seq<StateWidget>, order: seq<nat>, available: nat)
    returns (states: seq<State>, expanded: nat)
    requires IsOrderOf(order, |widgets|)
    ensures GreedyOutcome(margin, widgets, order, available, states, expanded)
    ensures expanded > 0 ==> LayoutWidth(margin, widgets, states) <= available
  {
    var n := |widgets|;
    states := seq(n, _ => Collapsed);
    expanded := 0;
    assert states == Expand(n, order[..0]);
    for idx := 0 to n
      invariant expanded == idx
      invariant states == Expand(n, order[..idx])
      invariant forall k :: 1 <= k <= idx ==> LayoutWidth(margin, widgets, Expand(n, order[..k])) <= available
    {
      var cachedStates := states;
      states := states[order[idx] := Standard];
      assert states == Expand(n, order[..idx + 1]) by {
        assert order[..idx + 1] == order[..idx] + [order[idx]];
      }
      var width := ComputeWidth(margin, widgets, states);
      if width > available {
        states := cachedStates;
        break;
      }
      expanded := expanded + 1;
    }
  }

  // ---------------------------------------------------------------------------
  // Monotonicity: expanding a widget never narrows the toolbar
  // ---------------------------------------------------------------------------

  /** Every widget is at least as wide in its standard form as collapsed. */
  predicate StandardNotNarrower(widgets: seq<StateWidget>) {
    forall i :: 0 <= i < |widgets| ==> widgets[i].collapsedWidth <= widgets[i].standardWidth
  }

  /** Every widget expanded in `a` is expanded in `b`. */
  predicate AtMostAsExpanded(a: seq<State>, b: seq<State>) {
    |a| == |b| && forall i :: 0 <= i < |a| ==> a[i] == Standard ==> b[i] == Standard
  }

  lemma {:induction false} WidgetsWidthMonotone(widgets: seq<StateWidget>, a: seq<State>, b: seq<State>)
    requires |a| == |widgets| && AtMostAsExpanded(a, b) && StandardNotNarrower(widgets)
    ensures WidgetsWidth(widgets, a) <= WidgetsWidth(widgets, b)
  {
    if widgets != [] {
      var n := |widgets|;
      WidgetsWidthMonotone(widgets[..n - 1], a[..n - 1], b[..n - 1]);
    }
  }

  lemma {:induction false} SpacersWidthMonotone(a: seq<State>, b: seq<State>)
    requires AtMostAsExpanded(a, b)
    ensures SpacersWidth(a) <= SpacersWidth(b)
  {
    if |a| >= 2 {
      var n := |a|;
      SpacersWidthMonotone(a[..n - 1], b[..n - 1]);
    }
  }

  /** Expanding more widgets never makes the toolbar narrower. */
  lemma LayoutWidthMonotone(margin: nat, widgets: seq<StateWidget>, a: seq<State>, b: seq<State>)
    requires |a| == |widgets| && AtMostAsExpanded(a, b) && StandardNotNarrower(widgets)
    ensures LayoutWidth(margin, widgets, a) <= LayoutWidth(margin, widgets, b)
  {
    WidgetsWidthMonotone(widgets, a, b);
    SpacersWidthMonotone(a, b);
  }

  /** The greedy result is the longest prefix of the priority order that fits: expanding any
      longer prefix overflows too. */
  lemma GreedyIsMaximal(margin: nat, widgets: seq<StateWidget>, order: seq<nat>, available: nat,
                        states: seq<State>, expanded: nat, k: nat)
    requires IsOrderOf(order, |widgets|) && StandardNotNarrower(widgets)
    requires GreedyOutcome(margin, widgets, order, available, states, expanded)
    requires expanded < k <= |widgets|
    ensures LayoutWidth(margin, widgets, Expand(|widgets|, order[..k])) > available
  {
    var n := |widgets|;
    var a := Expand(n, order[..expanded + 1]);
    var b := Expand(n, order[..k]);
    forall i | 0 <= i < n && a[i] == Standard
      ensures b[i] == Standard
    {
      var m :| 0 <= m < expanded + 1 && order[..expanded + 1][m] == i;
      assert order[..k][m] == i;
    }
    LayoutWidthMonotone(margin, widgets, a, b);
  }

  // ---------------------------------------------------------------------------
  // The toolbar widget
  // ---------------------------------------------------------------------------

  /** `SettingsAction::Widget`: the state widgets in toolbar order with their current states,
      and the spacer widgets between them. `lastOrder` and `lastExpanded` record the priority
      order and the number of expansions of the latest layout. */
  class Toolbar {
    const margin: nat
    var widgets: seq<StateWidget>
    var states: seq<State>
    var spacers: seq<SpacerType>
    ghost var lastOrder: seq<nat>
    ghost var lastExpanded: nat

    /** One state per widget and one spacer between each pair of neighbours. */
    ghost predicate Valid()
      reads this
    {
      |states| == |widgets| && |spacers| == SpacerCount(|widgets|)
    }

    constructor ()
      ensures Valid()
      ensures margin == LayoutMargin
      ensures widgets == [] && states == [] && spacers == []
    {
      margin := LayoutMargin;
      widgets := [];
      states := [];
      spacers := [];
      lastOrder := [];
      lastExpanded := 0;
    }

    /** `addStateWidget`: append the widget; from the second widget on, a new divider spacer
        goes in front of it. */
    method AddStateWidget(priority: int, collapsedWidth: nat, standardWidth: nat, initial: State)
      requires Valid()
      modifies this`widgets, this`states, this`spacers
      ensures Valid()
      ensures widgets == old(widgets) + [StateWidget(priority, collapsedWidth, standardWidth)]
      ensures states == old(states) + [initial]
      ensures spacers == old(spacers) + (if |old(widgets)| >= 1 then [Divider] else [])
    {
      widgets := widgets + [StateWidget(priority, collapsedWidth, standardWidth)];
      states := states + [initial];
      if |widgets| >= 2 {
        spacers := spacers + [Divider];
      }
    }

    /** `updateLayout`: run the greedy expansion over the priority order, then give every
        widget its final state and every spacer the type its two neighbours call for. */
    method UpdateLayout(available: nat)
      requires Valid()
      modifies this`states, this`spacers, this`lastOrder, this`lastExpanded
      ensures Valid()
      ensures IsOrderOf(lastOrder, |widgets|) && SortedByPriority(widgets, lastOrder)
      ensures GreedyOutcome(margin, widgets, lastOrder, available, states, lastExpanded)
      ensures spacers == SpacerTypes(states)
    {
      var order := SortByPriority(widgets);
      var finalStates, expanded := ComputeLayoutStates(margin, widgets, order, available);
      states := finalStates;
      spacers := SpacerTypes(finalStates);
      lastOrder := order;
      lastExpanded := expanded;
    }

    /** `eventFilter`: a resize event re-runs the layout; any other event changes nothing. */
    method EventFilter(isResize: bool, available: nat)
      requires Valid()
      modifies this`states, this`spacers, this`lastOrder, this`lastExpanded
      ensures Valid()
      ensures !isResize ==> unchanged(this)
      ensures isResize ==> IsOrderOf(lastOrder, |widgets|) && SortedByPriority(widgets, lastOrder)
      ensures isResize ==> GreedyOutcome(margin, widgets, lastOrder, available, states, lastExpanded)
      ensures isResize ==> spacers == SpacerTypes(states)
    {
      if isResize {
        UpdateLayout(available);
      }
    }
  }

  /** The toolbar the settings action builds: render mode, plot, position, colouring, subset,
      manual clustering and selection, with priorities 4, 7, 10, 8, 3, 0 and 2. */
  const ToolbarPriorities: seq<int> := [4, 7, 10, 8, 3, 0, 2]

  /** The toolbar widget of the settings action: its seven sections in the fixed order render
      mode, plot, position, colouring, subset, manual clustering and selection, each with its
      priority and the two size hints given, and a spacer between each pair of neighbours. */
  method NewSettingsToolbar(collapsedWidths: seq<nat>, standardWidths: seq<nat>) returns (toolbar: Toolbar)
    requires |collapsedWidths| == 7 && |standardWidths| == 7
    ensures fresh(toolbar) && toolbar.Valid()
    ensures |toolbar.widgets| == 7 && |toolbar.spacers| == 6
    ensures forall k :: 0 <= k < 7 ==>
      toolbar.widgets[k] == StateWidget(ToolbarPriorities[k], collapsedWidths[k], standardWidths[k])
  {
    toolbar := new Toolbar();
    toolbar.AddStateWidget(4, collapsedWidths[0], standardWidths[0], Standard);
    toolbar.AddStateWidget(7, collapsedWidths[1], standardWidths[1], Standard);
    toolbar.AddStateWidget(10, collapsedWidths[2], standardWidths[2], Standard);
    toolbar.AddStateWidget(8, collapsedWidths[3], standardWidths[3], Standard);
    toolbar.AddStateWidget(3, collapsedWidths[4], standardWidths[4], Standard);
    toolbar.AddStateWidget(0, collapsedWidths[5], standardWidths[5], Standard);
    toolbar.AddStateWidget(2, collapsedWidths[6], standardWidths[6], Standard);
  }

  /** Build the settings toolbar and lay it out once: it has seven widgets with the fixed
      priorities and six spacers, and if anything is expanded the row fits the available width. */
  method BuildSettingsToolbar(collapsedWidths: seq<nat>, standardWidths: seq<nat>, available: nat)
    returns (priorities: seq<int>, spacerCount: nat, width: nat, anyExpanded: bool)
    requires |collapsedWidths| == 7 && |standardWidths| == 7
    ensures priorities == ToolbarPriorities
    ensures spacerCount == 6
    ensures anyExpanded ==> width <= available
  {
    var toolbar := NewSettingsToolbar(collapsedWidths, standardWidths);
    var widgets := toolbar.widgets;
    toolbar.UpdateLayout(available);
    priorities := seq(7, k requires 0 <= k < 7 => widgets[k].priority);
    spacerCount := |toolbar.spacers|;
    width := ComputeWidth(toolbar.margin, toolbar.widgets, toolbar.states);
    anyExpanded := Standard in toolbar.states;
    if anyExpanded {
      ExpandedRowFits(toolbar.margin, toolbar.widgets, toolbar.lastOrder, available, toolbar.states, toolbar.lastExpanded);
    }
  }
}
