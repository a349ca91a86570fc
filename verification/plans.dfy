/** The two animation plans of a diagram: the forward pass, which chains the
    layers' and connectors' forward-pass animations, and the build plan that
    replaces the default creation animation. Animations are opaque tokens
    recording what they animate; a group records its members, its run time
    and its lag ratio. */
module Plans {
  import opened Elements
  import opened Connective
  import opened Network

  datatype Animation = ForwardPass(of: Element) | Create(of: Element)

  /** `runTime` is None when the group is left to its members' durations. */
  datatype AnimationGroup = AnimationGroup(animations: seq<Animation>, runTime: Option<real>, lagRatio: real)

  /** Lag ratio 1.0: each member starts when the previous one ends. */
  const Sequential: real := 1.0

  /** Default duration of the forward pass. */
  const DefaultRunTime: real := 10.0

  /** The elements a sequence of animations animates, in order. */
  function Targets(animations: seq<Animation>): (r: seq<Element>)
    ensures |r| == |animations|
    ensures forall j :: 0 <= j < |r| ==> r[j] == animations[j].of
  {
    seq(|animations|, j requires 0 <= j < |animations| => animations[j].of)
  }

  /** The loop over the first k layers, as written: layer i's animation,
      then that of the connector at position i of the connector list, which
      fails when that list is shorter than the loop. */
  function ForwardPassSteps(connectors: seq<Connector>, k: nat): (r: Result<seq<Animation>>)
    ensures r.Ok? <==> k <= |connectors|
    ensures r.Err? ==> r.error == IndexError
    ensures r.Ok? ==> |r.value| == 2 * k && forall j :: 0 <= j < |r.value| ==> r.value[j] == ForwardPass(Interleaved(j))
  {
    if k == 0 then Ok([])
    else
      match ForwardPassSteps(connectors, k - 1)
      case Err(e) => Err(e)
      case Ok(steps) =>
        if k - 1 < |connectors| then Ok(steps + [ForwardPass(LayerElem(k - 1)), ForwardPass(ConnectorElem(k - 1))])
        else Err(IndexError)
  }

  /** The forward-pass plan as written: the loop over all layers but the
      last, then the last layer, grouped with the requested run time and lag
      ratio 1.0. The last layer of an empty chain does not exist. */
  function ForwardPassPlan(d: Diagram, runTime: real := DefaultRunTime): (r: Result<AnimationGroup>)
    ensures r.Ok? <==> 0 < |d.layers| <= |d.connectors| + 1
    ensures r.Err? ==> r.error == IndexError
    ensures r.Ok? ==>
      && |r.value.animations| == 2 * |d.layers| - 1
      && (forall j :: 0 <= j < |r.value.animations| ==> r.value.animations[j] == ForwardPass(Interleaved(j)))
      && r.value.runTime == Some(runTime)
      && r.value.lagRatio == Sequential
  {
    if |d.layers| == 0 then Err(IndexError)
    else
      match ForwardPassSteps(d.connectors, |d.layers| - 1)
      case Err(e) => Err(e)
      case Ok(steps) =>
        Ok(AnimationGroup(steps + [ForwardPass(LayerElem(|d.layers| - 1))], Some(runTime), Sequential))
  }

  /** On a built diagram the forward-pass plan succeeds exactly when no
      adjacency was skipped; then the connector animated after layer i is the
      one bridging layer i and layer i + 1. */
  lemma ForwardPassPlanSucceedsIff(d: Diagram, runTime: real)
    requires Coherent(d)
    ensures ForwardPassPlan(d, runTime).Ok? <==> d.warnings == []
    ensures d.warnings == [] ==> forall i :: 0 <= i < |d.layers| - 1 ==>
      d.connectors[i].source == i && d.connectors[i].target == i + 1
  {
    var k := |d.layers| - 1;
    ConnectedAdjacenciesSpec(d.layers, k);
  }

  /** As written, one skipped adjacency makes the forward pass fail with
      IndexError: a chain of classes [FeedForward, FeedForward, Other] builds
      one connector and one warning, and the loop then asks for connector 1. */
  lemma SkippedAdjacencyFails(d: Diagram, runTime: real)
    requires Coherent(d) && |d.layers| == 3
    requires d.layers[0].kind == FeedForward && d.layers[1].kind == FeedForward && d.layers[2].kind == Other
    ensures d.warnings == [UnimplementedConnection(FeedForward, Other)]
    ensures |d.connectors| == 1
    ensures ForwardPassPlan(d, runTime) == Err(IndexError)
  {
    assert MissingConnections(d.layers, 1) == [];
    ForwardPassPlanSucceedsIff(d, runTime);
  }

  /** On the same chain the corrected plan animates all three layers and the
      one connector. */
  lemma SkippedAdjacencyFixed(d: Diagram, runTime: real)
    requires Coherent(d) && |d.layers| == 3
    requires d.layers[0].kind == FeedForward && d.layers[1].kind == FeedForward && d.layers[2].kind == Other
    ensures LayerIndices(Targets(ForwardPassPlanFixed(d, runTime).animations)) == [0, 1, 2]
    ensures ConnectorIndices(Targets(ForwardPassPlanFixed(d, runTime).animations)) == [0]
  {
    SkippedAdjacencyFails(d, runTime);
    ForwardPassPlanFixedCoversChain(d, runTime);
    assert Range(2) == [0, 1];
  }

  /** The forward pass with missing connectors skipped: one forward-pass
      animation per display-list entry, in display order, so a missing
      connector is passed over instead of shifting the others. */
  function ForwardPassPlanFixed(d: Diagram, runTime: real): (r: AnimationGroup)
    ensures |r.animations| == |d.display|
    ensures forall j :: 0 <= j < |r.animations| ==> r.animations[j].ForwardPass?
    ensures Targets(r.animations) == d.display
    ensures r.runTime == Some(runTime) && r.lagRatio == Sequential
  {
    AnimationGroup(seq(|d.display|, j requires 0 <= j < |d.display| => ForwardPass(d.display[j])), Some(runTime), Sequential)
  }

  /** The corrected plan never fails and covers the whole chain: every layer
      once, in chain order, every connector once, in order, and each
      connector's animation directly between those of the two layers it
      bridges. */
  lemma ForwardPassPlanFixedCoversChain(d: Diagram, runTime: real)
    requires Coherent(d)
    ensures var targets := Targets(ForwardPassPlanFixed(d, runTime).animations);
      && |targets| == |d.layers| + |d.connectors|
      && LayerIndices(targets) == Range(|d.layers|)
      && ConnectorIndices(targets) == Range(|d.connectors|)
      && (forall j :: 0 <= j < |targets| && targets[j].ConnectorElem? ==>
            0 < j < |targets| - 1
            && targets[j - 1] == LayerElem(d.connectors[targets[j].connector].source)
            && targets[j + 1] == LayerElem(d.connectors[targets[j].connector].target))
  {
  }

  /** Wherever the plan as written succeeds, the corrected plan equals it. */
  lemma ForwardPassPlanFixedAgrees(d: Diagram, runTime: real)
    requires Coherent(d)
    requires ForwardPassPlan(d, runTime).Ok?
    ensures ForwardPassPlan(d, runTime).value == ForwardPassPlanFixed(d, runTime)
  {
  }

  /** A feed-forward network always has a forward pass. */
  lemma FeedForwardPassSucceeds(
    nodeCounts: seq<nat>, layerWidth: nat -> real, layerCenter: nat -> Point, style: Style, frameWidth: real, recentring: Point, runTime: real)
    requires |nodeCounts| > 0
    ensures var d := FeedForwardNeuralNetwork(nodeCounts, layerWidth, layerCenter, style, frameWidth, recentring).value;
      ForwardPassPlan(d, runTime).Ok?
      && |ForwardPassPlan(d, runTime).value.animations| == 2 * |nodeCounts| - 1
  {
    var d := FeedForwardNeuralNetwork(nodeCounts, layerWidth, layerCenter, style, frameWidth, recentring).value;
    FeedForwardSpec(nodeCounts, layerWidth, layerCenter, style, frameWidth, recentring);
    ForwardPassPlanSucceedsIff(d, runTime);
  }

  /** The build plan: one creation animation per display-list entry, in
      display order, with lag ratio 1.0 and no run-time override. */
  function CreatePlan(d: Diagram): (r: AnimationGroup)
    ensures |r.animations| == |d.display|
    ensures forall j :: 0 <= j < |r.animations| ==> r.animations[j].Create?
    ensures Targets(r.animations) == d.display
    ensures r.runTime == None && r.lagRatio == Sequential
  {
    AnimationGroup(seq(|d.display|, j requires 0 <= j < |d.display| => Create(d.display[j])), None, Sequential)
  }

  /** On a built diagram the build plan creates every layer exactly once, in
      chain order, and every connector exactly once, in order, each connector
      right between the layers it bridges. */
  lemma CreatePlanBuildsWholeDiagram(d: Diagram)
    requires Coherent(d)
    ensures var targets := Targets(CreatePlan(d).animations);
      && |targets| == |d.layers| + |d.connectors|
      && LayerIndices(targets) == Range(|d.layers|)
      && ConnectorIndices(targets) == Range(|d.connectors|)
      && targets[|targets| - 1] == LayerElem(|d.layers| - 1)
  {
    var targets := Targets(CreatePlan(d).animations);
    assert targets == d.display;
    LastIsLayer(d);
  }

  /** The display list of a built diagram ends with the last layer. */
  lemma LastIsLayer(d: Diagram)
    requires Coherent(d)
    ensures d.display[|d.display| - 1] == LayerElem(|d.layers| - 1)
  {
    var n := |d.display|;
    var last := d.display[n - 1];
    assert d.display[..n - 1] + [last] == d.display;
    IndicesAppend(d.display[..n - 1], last);
    assert LayerIndices(d.display)[|d.layers| - 1] == last.layer;
  }
}
