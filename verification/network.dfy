/** The diagram's constructor pipeline: lay the layers out in a row, derive
    the connectors and the display list from the placed layers, then translate
    the whole diagram so that its bounding box is centred on the origin. Also
    the convenience constructor for an all-feed-forward network. */
module Network {
  import opened Elements
  import opened Layout
  import opened Connective

  /** A built diagram: the layers in chain order, the connectors, the
      interleaved display list and the warnings raised while connecting. */
  datatype Diagram = Diagram(layers: seq<Layer>, connectors: seq<Connector>, display: seq<Element>, warnings: seq<Warning>)

  /** What construction guarantees about the relation between a diagram's
      layers, connectors, display list and warnings. */
  ghost predicate Coherent(d: Diagram) {
    && |d.connectors| + |d.warnings| + 1 == |d.layers|
    && ConnectorsCoherent(d)
    && DisplayCoherent(d)
  }

  /** The connectors are those of the connectable adjacencies, in chain
      order, and the warnings are due for exactly the other adjacencies. */
  ghost predicate ConnectorsCoherent(d: Diagram)
    requires |d.layers| > 0
  {
    && d.warnings == MissingConnections(d.layers, |d.layers| - 1)
    && |d.connectors| == |ConnectedAdjacencies(d.layers, |d.layers| - 1)|
    && (forall c :: 0 <= c < |d.connectors| ==>
          d.connectors[c].source == ConnectedAdjacencies(d.layers, |d.layers| - 1)[c])
    && (forall c :: 0 <= c < |d.connectors| ==> d.connectors[c].target == d.connectors[c].source + 1)
  }

  /** The display list holds every layer and every connector, each in order,
      with each connector between the two layers it bridges. */
  ghost predicate DisplayCoherent(d: Diagram)
    requires |d.layers| > 0
  {
    && |d.display| == |d.layers| + |d.connectors|
    && LayerIndices(d.display) == Range(|d.layers|)
    && ConnectorIndices(d.display) == Range(|d.connectors|)
    && (forall j :: 0 <= j < |d.display| && d.display[j].ConnectorElem? ==>
          j + 1 < |d.display| && Bridges(d.connectors, d.display, j, |d.layers| - 1))
    && (d.warnings == [] ==> forall j :: 0 <= j < |d.display| ==> d.display[j] == Interleaved(j))
  }

  /** Translates every layer's centre by the same offset. */
  function Recentre(layers: seq<Layer>, offset: Point): (r: seq<Layer>)
    ensures |r| == |layers|
    ensures forall i :: 0 <= i < |r| ==> r[i] == layers[i].(center := Translate(layers[i].center, offset))
  {
    seq(|layers|, i requires 0 <= i < |layers| => layers[i].(center := Translate(layers[i].center, offset)))
  }

  /** The constructor. `recentring` is the translation that moves the centre
      of the laid-out diagram's bounding box to the origin; measuring that box
      needs the drawn geometry of layers and connectors, so it is an input. */
  function Construct(layers: seq<Layer>, style: Style := DefaultStyle, frameWidth: real, recentring: Point): (r: Result<Diagram>)
    ensures r.Err? <==> |layers| == 0
    ensures r.Ok? ==> |r.value.layers| == |layers| && |r.value.connectors| + |r.value.warnings| + 1 == |layers|
  {
    var placed := PlaceLayers(layers, frameWidth);
    match Synthesize(placed, style)
    case Err(e) => Err(e)
    case Ok(s) => Ok(Diagram(Recentre(placed, recentring), s.connectors, s.display, s.warnings))
  }

  /** What a built diagram satisfies: it is coherent; its layers keep their
      classes and widths, lie above the connectors, start at the recentred
      anchor and follow the spacing recurrence; each connector is the one the
      dispatch picks for the two layers it bridges. */
  lemma ConstructSpec(layers: seq<Layer>, style: Style, frameWidth: real, recentring: Point)
    requires |layers| > 0
    ensures var d := Construct(layers, style, frameWidth, recentring).value;
      && Coherent(d)
      && SameKinds(d.layers, layers)
      && (forall i :: 0 <= i < |layers| ==> d.layers[i].width == layers[i].width && d.layers[i].zIndex == LayerZ)
      && (forall c :: 0 <= c < |d.connectors| ==> d.connectors[c].zIndex == ConnectorZ)
      && (forall c :: 0 <= c < |d.connectors| ==> BuiltFor(layers, style, d.connectors[c]))
      && d.layers[0].center == Translate(layers[0].center, recentring)
      && (forall i :: 1 <= i < |layers| ==>
            d.layers[i].center == ShiftX(d.layers[i - 1].center, Spacing(frameWidth, layers[i - 1].width, layers[i].width)))
  {
    var placed := PlaceLayers(layers, frameWidth);
    var s := Synthesize(placed, style).value;
    ConstructParts(layers, style, frameWidth, recentring);
    RecentredRow(layers, frameWidth, recentring);
    ConstructCoherent(layers, placed, style, Recentre(placed, recentring), s);
  }

  /** Recentring keeps the row: the recentred layers keep classes, widths
      and z-index, and their centres keep the spacing recurrence. */
  lemma RecentredRow(layers: seq<Layer>, frameWidth: real, recentring: Point)
    requires |layers| > 0
    ensures var final := Recentre(PlaceLayers(layers, frameWidth), recentring);
      && SameKinds(final, layers)
      && (forall i :: 0 <= i < |layers| ==> final[i].width == layers[i].width && final[i].zIndex == LayerZ)
      && final[0].center == Translate(layers[0].center, recentring)
      && (forall i :: 1 <= i < |layers| ==>
            final[i].center == ShiftX(final[i - 1].center, Spacing(frameWidth, layers[i - 1].width, layers[i].width)))
  {
  }

  lemma ConstructCoherent(layers: seq<Layer>, placed: seq<Layer>, style: Style, final: seq<Layer>, s: Synthesis)
    requires |layers| > 0
    requires SameKinds(placed, layers) && SameKinds(final, layers)
    requires Synthesize(placed, style) == Ok(s)
    ensures Coherent(Diagram(final, s.connectors, s.display, s.warnings))
    ensures forall c :: 0 <= c < |s.connectors| ==> BuiltFor(layers, style, s.connectors[c])
  {
    ConstructConnectors(layers, placed, style, final, s);
    ConstructDisplay(placed, style, final, s);
  }

  lemma ConstructConnectors(layers: seq<Layer>, placed: seq<Layer>, style: Style, final: seq<Layer>, s: Synthesis)
    requires |layers| > 0
    requires SameKinds(placed, layers) && SameKinds(final, layers)
    requires Synthesize(placed, style) == Ok(s)
    ensures ConnectorsCoherent(Diagram(final, s.connectors, s.display, s.warnings))
    ensures forall c :: 0 <= c < |s.connectors| ==> BuiltFor(layers, style, s.connectors[c])
  {
    var k := |layers| - 1;
    SynthesizeConnectors(placed, style);
    WalkKindsOnly(placed, final, style, k);
    forall c | 0 <= c < |s.connectors|
      ensures s.connectors[c].target == s.connectors[c].source + 1
      ensures BuiltFor(layers, style, s.connectors[c])
    {
      assert BuiltFor(placed, style, s.connectors[c]);
    }
  }

  lemma ConstructDisplay(placed: seq<Layer>, style: Style, final: seq<Layer>, s: Synthesis)
    requires |placed| > 0 && |final| == |placed|
    requires Synthesize(placed, style) == Ok(s)
    ensures DisplayCoherent(Diagram(final, s.connectors, s.display, s.warnings))
  {
    SynthesizeDisplay(placed, style);
    if s.warnings == [] {
      SynthesizeInterleaved(placed, style);
    }
  }

  /** Difference of two points, coordinate by coordinate. */
  function Delta(p: Point, q: Point): Point {
    Point(p.x - q.x, p.y - q.y, p.z - q.z)
  }

  /** Building twice from layers of the same classes yields the same
      connectors, display list and warnings, whatever the layers' geometry and
      the recentring offsets. */
  lemma ConstructSameStructure(a: seq<Layer>, b: seq<Layer>, style: Style, frameWidth: real, ra: Point, rb: Point)
    requires SameKinds(a, b) && |a| > 0
    ensures var da, db := Construct(a, style, frameWidth, ra).value, Construct(b, style, frameWidth, rb).value;
      da.connectors == db.connectors && da.display == db.display && da.warnings == db.warnings
  {
    ConstructParts(a, style, frameWidth, ra);
    ConstructParts(b, style, frameWidth, rb);
    SynthesizeKindsOnly(PlaceLayers(a, frameWidth), PlaceLayers(b, frameWidth), style);
  }

  /** Building twice from layers of the same classes and widths yields
      layers that differ only by one common translation, whatever the layers'
      earlier positions and the recentring offsets. */
  lemma ConstructRelativeGeometry(
    a: seq<Layer>, b: seq<Layer>, style: Style, frameWidth: real, ra: Point, rb: Point, i: nat)
    requires SameKinds(a, b) && i < |a|
    requires forall k :: 0 <= k < |a| ==> a[k].width == b[k].width
    ensures var la, lb := Construct(a, style, frameWidth, ra).value.layers, Construct(b, style, frameWidth, rb).value.layers;
      Delta(la[i].center, lb[i].center) == Delta(la[0].center, lb[0].center)
  {
    ConstructParts(a, style, frameWidth, ra);
    ConstructParts(b, style, frameWidth, rb);
    RecentredRelative(a, b, frameWidth, ra, rb, i);
  }

  lemma RecentredRelative(a: seq<Layer>, b: seq<Layer>, frameWidth: real, ra: Point, rb: Point, i: nat)
    requires |a| == |b| && i < |a|
    requires forall k :: 0 <= k < |a| ==> a[k].width == b[k].width
    ensures var la, lb := Recentre(PlaceLayers(a, frameWidth), ra), Recentre(PlaceLayers(b, frameWidth), rb);
      Delta(la[i].center, lb[i].center) == Delta(la[0].center, lb[0].center)
  {
    PlaceLayersRelative(a, b, frameWidth, i);
  }

  /** The diagram is assembled from the recentred placement and the
      synthesis over the placed layers. */
  lemma ConstructParts(layers: seq<Layer>, style: Style, frameWidth: real, recentring: Point)
    requires |layers| > 0
    ensures var placed := PlaceLayers(layers, frameWidth);
      var s := Synthesize(placed, style).value;
      Construct(layers, style, frameWidth, recentring) == Ok(Diagram(Recentre(placed, recentring), s.connectors, s.display, s.warnings))
  {
  }

  /** The layer every count becomes: a feed-forward layer of the width its
      node column takes, at the centre the layer class gives it. */
  function FeedForwardLayers(nodeCounts: seq<nat>, layerWidth: nat -> real, layerCenter: nat -> Point): (layers: seq<Layer>)
    ensures |layers| == |nodeCounts|
    ensures forall i :: 0 <= i < |layers| ==>
      layers[i] == Layer(FeedForward, layerWidth(nodeCounts[i]), layerCenter(nodeCounts[i]), DefaultZ)
  {
    seq(|nodeCounts|, i requires 0 <= i < |nodeCounts| =>
      Layer(FeedForward, layerWidth(nodeCounts[i]), layerCenter(nodeCounts[i]), DefaultZ))
  }

  /** The feed-forward network: one feed-forward layer per node count. */
  function FeedForwardNeuralNetwork(
    nodeCounts: seq<nat>, layerWidth: nat -> real, layerCenter: nat -> Point, style: Style, frameWidth: real, recentring: Point): (r: Result<Diagram>)
    ensures r.Err? <==> |nodeCounts| == 0
    ensures r.Ok? ==> |r.value.layers| == |nodeCounts|
  {
    Construct(FeedForwardLayers(nodeCounts, layerWidth, layerCenter), style, frameWidth, recentring)
  }

  /** A feed-forward network is built with no warning, every adjacent pair
      connected in chain order by an edge connector of the style's width. */
  lemma FeedForwardSpec(nodeCounts: seq<nat>, layerWidth: nat -> real, layerCenter: nat -> Point, style: Style, frameWidth: real, recentring: Point)
    requires |nodeCounts| > 0
    ensures var d := FeedForwardNeuralNetwork(nodeCounts, layerWidth, layerCenter, style, frameWidth, recentring).value;
      && Coherent(d)
      && (forall i :: 0 <= i < |nodeCounts| ==> d.layers[i].kind == FeedForward && d.layers[i].width == layerWidth(nodeCounts[i]))
      && d.warnings == []
      && |d.connectors| == |nodeCounts| - 1
      && (forall c :: 0 <= c < |d.connectors| ==>
            d.connectors[c] == Connector(FeedForwardToFeedForward(style.edgeWidth), c, c + 1, ConnectorZ))
  {
    var layers := FeedForwardLayers(nodeCounts, layerWidth, layerCenter);
    ConstructFeedForward(layers, style, frameWidth, recentring);
  }

  lemma ConstructFeedForward(layers: seq<Layer>, style: Style, frameWidth: real, recentring: Point)
    requires |layers| > 0
    requires forall i :: 0 <= i < |layers| ==> layers[i].kind == FeedForward
    ensures var d := Construct(layers, style, frameWidth, recentring).value;
      && Coherent(d)
      && (forall i :: 0 <= i < |layers| ==> d.layers[i].kind == FeedForward && d.layers[i].width == layers[i].width)
      && d.warnings == []
      && |d.connectors| == |layers| - 1
      && (forall c :: 0 <= c < |d.connectors| ==>
            d.connectors[c] == Connector(FeedForwardToFeedForward(style.edgeWidth), c, c + 1, ConnectorZ))
  {
    var d := Construct(layers, style, frameWidth, recentring).value;
    ConstructSpec(layers, style, frameWidth, recentring);
    FeedForwardChain(d, layers, style);
  }

  lemma FeedForwardChain(d: Diagram, layers: seq<Layer>, style: Style)
    requires Coherent(d) && SameKinds(d.layers, layers)
    requires forall i :: 0 <= i < |layers| ==> layers[i].kind == FeedForward
    requires forall c :: 0 <= c < |d.connectors| ==> d.connectors[c].zIndex == ConnectorZ && BuiltFor(layers, style, d.connectors[c])
    ensures d.warnings == [] && |d.connectors| == |layers| - 1
    ensures forall c :: 0 <= c < |d.connectors| ==>
      d.connectors[c] == Connector(FeedForwardToFeedForward(style.edgeWidth), c, c + 1, ConnectorZ)
  {
    AllFeedForwardChain(d);
    forall c | 0 <= c < |d.connectors|
      ensures d.connectors[c] == Connector(FeedForwardToFeedForward(style.edgeWidth), c, c + 1, ConnectorZ)
    {
      assert BuiltFor(layers, style, d.connectors[c]);
    }
  }

  /** A built chain of feed-forward layers has no warning and connects every
      adjacent pair, in chain order. */
  lemma AllFeedForwardChain(d: Diagram)
    requires Coherent(d)
    requires forall i :: 0 <= i < |d.layers| ==> d.layers[i].kind == FeedForward
    ensures d.warnings == [] && |d.connectors| == |d.layers| - 1
    ensures forall c :: 0 <= c < |d.connectors| ==> d.connectors[c].source == c && d.connectors[c].target == c + 1
  {
    var k := |d.layers| - 1;
    NoWarningIffAllConnectable(d.layers, k);
    ConnectedAdjacenciesSpec(d.layers, k);
  }
}
