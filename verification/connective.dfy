/** Synthesis of the connective layers: every adjacent pair of layers is
    bridged by the connector its two classes call for, or, when none is
    implemented, reported in a warning and left unconnected. Alongside the
    connectors it builds the display list L0, C?, L1, C?, ..., L(N-1). */
module Connective {
  import opened Elements

  /** The style parameters the connectors are built with. */
  datatype Style = Style(edgeWidth: real, dotRadius: real)

  const DefaultStyle: Style := Style(1.5, 0.03)

  /** The pairs of layer classes a connector is implemented for: only a
      feed-forward layer can be fed, and only by a feed-forward or an image
      layer. */
  predicate Connectable(from: LayerKind, to: LayerKind)
    ensures Connectable(from, to) <==> from != Other && to !in {Image, Other}
  {
    to == FeedForward && (from == FeedForward || from == Image)
  }

  /** The connector for one adjacent pair; the two cases are tried in order
      and the first that matches wins. */
  function Dispatch(from: LayerKind, to: LayerKind, style: Style): (r: Option<ConnectorKind>)
    ensures r.Some? <==> Connectable(from, to)
    ensures r.Some? && from == FeedForward ==> r.value == FeedForwardToFeedForward(style.edgeWidth)
    ensures r.Some? && from == Image ==> r.value == ImageToFeedForward(style.dotRadius)
  {
    if from == FeedForward && to == FeedForward then Some(FeedForwardToFeedForward(style.edgeWidth))
    else if from == Image && to == FeedForward then Some(ImageToFeedForward(style.dotRadius))
    else None
  }

  /** The connectors, the display list and the warnings of a synthesis. */
  datatype Synthesis = Synthesis(connectors: seq<Connector>, display: seq<Element>, warnings: seq<Warning>)

  /** Reference definition: the adjacencies (named by their left layer)
      among the first k that have a connector, in chain order. */
  function ConnectedAdjacencies(layers: seq<Layer>, k: nat): seq<nat>
    requires k < |layers|
  {
    if k == 0 then []
    else
      ConnectedAdjacencies(layers, k - 1)
      + (if Connectable(layers[k - 1].kind, layers[k].kind) then [k - 1] else [])
  }

  /** An adjacency is listed exactly when it is connectable; the list is in
      chain order; and together with the warnings it accounts for every
      adjacency, so no warning means every adjacency is listed. */
  lemma {:induction false} ConnectedAdjacenciesSpec(layers: seq<Layer>, k: nat)
    requires k < |layers|
    ensures forall i: int {:trigger i in ConnectedAdjacencies(layers, k)} :: i in ConnectedAdjacencies(layers, k) <==> 0 <= i < k && Connectable(layers[i].kind, layers[i + 1].kind)
    ensures forall a, b :: 0 <= a < b < |ConnectedAdjacencies(layers, k)| ==>
      ConnectedAdjacencies(layers, k)[a] < ConnectedAdjacencies(layers, k)[b]
    ensures |ConnectedAdjacencies(layers, k)| + |MissingConnections(layers, k)| == k
    ensures MissingConnections(layers, k) == [] <==> ConnectedAdjacencies(layers, k) == Range(k)
  {
    if k == 0 {
      assert ConnectedAdjacencies(layers, k) == [];
    } else {
      ConnectedAdjacenciesSpec(layers, k - 1);
      var before := ConnectedAdjacencies(layers, k - 1);
      var tail: seq<nat> := if Connectable(layers[k - 1].kind, layers[k].kind) then [k - 1] else [];
      assert ConnectedAdjacencies(layers, k) == before + tail;
      forall i: int
        ensures i in before + tail <==> 0 <= i < k && Connectable(layers[i].kind, layers[i + 1].kind)
      {
        assert i in before + tail <==> i in before || i in tail;
        if i in tail {
          assert i == k - 1;
        }
      }
      forall a, b | 0 <= a < b < |before + tail|
        ensures (before + tail)[a] < (before + tail)[b]
      {
        if b >= |before| {
          assert (before + tail)[a] == before[a] && before[a] in before;
        }
      }
    }
  }

  /** No warning is due exactly when every adjacency is connectable. */
  lemma {:induction false} NoWarningIffAllConnectable(layers: seq<Layer>, k: nat)
    requires k < |layers|
    ensures MissingConnections(layers, k) == [] <==>
      forall i :: 0 <= i < k ==> Connectable(layers[i].kind, layers[i + 1].kind)
  {
    if k > 0 {
      NoWarningIffAllConnectable(layers, k - 1);
    }
  }

  /** Reference definition: the warnings due for the first k adjacencies. */
  function MissingConnections(layers: seq<Layer>, k: nat): seq<Warning>
    requires k < |layers|
  {
    if k == 0 then []
    else
      MissingConnections(layers, k - 1)
      + (if Connectable(layers[k - 1].kind, layers[k].kind) then []
         else [UnimplementedConnection(layers[k - 1].kind, layers[k].kind)])
  }

  /** A connector bridges two neighbouring layers with the kind the dispatch
      picks for them. */
  ghost predicate BuiltFor(layers: seq<Layer>, style: Style, c: Connector) {
    && c.target == c.source + 1 < |layers|
    && Dispatch(layers[c.source].kind, layers[c.target].kind, style) == Some(c.kind)
  }

  /** The connector entry at position j of a display list under
      construction sits right after its source layer and right before its
      target layer, or, at the end of the list, its target is layer k, the
      next one to be appended. */
  ghost predicate Bridges(connectors: seq<Connector>, display: seq<Element>, j: nat, k: nat)
    requires j < |display| && display[j].ConnectorElem?
  {
    var c := display[j].connector;
    && c < |connectors|
    && 0 < j
    && display[j - 1] == LayerElem(connectors[c].source)
    && (if j + 1 < |display| then display[j + 1] == LayerElem(connectors[c].target)
        else connectors[c].target == k)
  }

  /** Every connector entry of a display list under construction bridges
      its two layers. */
  ghost predicate AllBridged(s: Synthesis, k: nat) {
    forall j :: 0 <= j < |s.display| && s.display[j].ConnectorElem? ==> Bridges(s.connectors, s.display, j, k)
  }

  /** The body of the synthesis loop run over the first k adjacencies: each
      iteration appends the left layer to the display list, then either a new
      connector (to both lists) or a warning. */
  function Walk(layers: seq<Layer>, style: Style, k: nat): (s: Synthesis)
    requires k < |layers|
    ensures |s.connectors| + |s.warnings| == k
    ensures |s.display| == k + |s.connectors|
  {
    if k == 0 then Synthesis([], [], [])
    else
      var before := Walk(layers, style, k - 1);
      var current, next := layers[k - 1], layers[k];
      match Dispatch(current.kind, next.kind, style)
      case Some(kind) =>
        Synthesis(before.connectors + [Connector(kind, k - 1, k, DefaultZ)],
                  before.display + [LayerElem(k - 1), ConnectorElem(|before.connectors|)],
                  before.warnings)
      case None =>
        Synthesis(before.connectors,
                  before.display + [LayerElem(k - 1)],
                  before.warnings + [UnimplementedConnection(current.kind, next.kind)])
  }

  /** The connectors of the loop are those of the connectable adjacencies, in
      chain order, each built for its pair; the warnings name exactly the
      other adjacencies, in chain order. */
  lemma {:induction false} WalkConnectors(layers: seq<Layer>, style: Style, k: nat)
    requires k < |layers|
    ensures var s := Walk(layers, style, k);
      && |s.connectors| == |ConnectedAdjacencies(layers, k)|
      && (forall c :: 0 <= c < |s.connectors| ==> s.connectors[c].source == ConnectedAdjacencies(layers, k)[c])
      && (forall c :: 0 <= c < |s.connectors| ==>
            BuiltFor(layers, style, s.connectors[c]) && s.connectors[c].zIndex == DefaultZ)
      && s.warnings == MissingConnections(layers, k)
  {
    if k > 0 {
      WalkConnectors(layers, style, k - 1);
    }
  }

  /** Deleting the connectors from the display list of the loop leaves the
      first k layers in order. */
  lemma {:induction false} WalkLayerOrder(layers: seq<Layer>, style: Style, k: nat)
    requires k < |layers|
    ensures LayerIndices(Walk(layers, style, k).display) == Range(k)
  {
    if k > 0 {
      var before := Walk(layers, style, k - 1);
      WalkLayerOrder(layers, style, k - 1);
      var d1 := before.display + [LayerElem(k - 1)];
      assert LayerIndices(d1) == Range(k) by {
        IndicesAppend(before.display, LayerElem(k - 1));
      }
      WalkStep(layers, style, k);
      if Connectable(layers[k - 1].kind, layers[k].kind) {
        IndicesAppend(d1, ConnectorElem(|before.connectors|));
      }
    }
  }

  /** One iteration of the loop. */
  lemma WalkStep(layers: seq<Layer>, style: Style, k: nat)
    requires 0 < k < |layers|
    ensures var before, s := Walk(layers, style, k - 1), Walk(layers, style, k);
      if Connectable(layers[k - 1].kind, layers[k].kind) then
        && s.display == before.display + [LayerElem(k - 1)] + [ConnectorElem(|before.connectors|)]
        && s.connectors == before.connectors + [s.connectors[|before.connectors|]]
        && s.warnings == before.warnings
      else
        && s.display == before.display + [LayerElem(k - 1)]
        && s.connectors == before.connectors
        && s.warnings == before.warnings + [UnimplementedConnection(layers[k - 1].kind, layers[k].kind)]
  {
  }

  /** The connector entries of the display list of the loop name the
      connectors in order. */
  lemma {:induction false} WalkConnectorOrder(layers: seq<Layer>, style: Style, k: nat)
    requires k < |layers|
    ensures ConnectorIndices(Walk(layers, style, k).display) == Range(|Walk(layers, style, k).connectors|)
  {
    if k > 0 {
      var before := Walk(layers, style, k - 1);
      WalkConnectorOrder(layers, style, k - 1);
      var d1 := before.display + [LayerElem(k - 1)];
      assert ConnectorIndices(d1) == Range(|before.connectors|) by {
        IndicesAppend(before.display, LayerElem(k - 1));
      }
      WalkStep(layers, style, k);
      if Connectable(layers[k - 1].kind, layers[k].kind) {
        IndicesAppend(d1, ConnectorElem(|before.connectors|));
      }
    }
  }

  /** In the display list of the loop each connector sits right after its
      source layer and right before its target layer. */
  lemma {:induction false} WalkBridges(layers: seq<Layer>, style: Style, k: nat)
    requires k < |layers|
    ensures AllBridged(Walk(layers, style, k), k)
  {
    if k > 0 {
      var before := Walk(layers, style, k - 1);
      WalkBridges(layers, style, k - 1);
      assert forall j :: 0 <= j < |before.display| && before.display[j].ConnectorElem? ==>
        Bridges(before.connectors, before.display, j, k - 1);
      var s := Walk(layers, style, k);
      assert s.display[..|before.display|] == before.display;
      assert s.display[|before.display|] == LayerElem(k - 1);
      assert s.connectors[..|before.connectors|] == before.connectors;
      forall j | 0 <= j < |s.display| && s.display[j].ConnectorElem?
        ensures Bridges(s.connectors, s.display, j, k)
      {
        if j < |before.display| {
          assert s.display[j] == before.display[j];
          assert before.display[j].ConnectorElem?;
          assert Bridges(before.connectors, before.display, j, k - 1);
          var c := s.display[j].connector;
          assert s.connectors[c] == before.connectors[c];
          assert s.display[j - 1] == before.display[j - 1];
          if j + 1 < |before.display| {
            assert s.display[j + 1] == before.display[j + 1];
          }
        }
      }
    }
  }

  /** With no warning the display list alternates L0, C0, L1, C1, ... */
  lemma {:induction false} WalkInterleaved(layers: seq<Layer>, style: Style, k: nat)
    requires k < |layers|
    requires Walk(layers, style, k).warnings == []
    ensures var s := Walk(layers, style, k);
      forall j :: 0 <= j < |s.display| ==> s.display[j] == Interleaved(j)
  {
    if k > 0 {
      match Dispatch(layers[k - 1].kind, layers[k].kind, style)
      case Some(_) =>
        WalkInterleaved(layers, style, k - 1);
      case None =>
        assert false;
    }
  }

  /** Gives every connector the same z-index. */
  function WithZIndex(connectors: seq<Connector>, z: int): (r: seq<Connector>)
    ensures |r| == |connectors|
    ensures forall c :: 0 <= c < |r| ==> r[c] == connectors[c].(zIndex := z)
  {
    seq(|connectors|, c requires 0 <= c < |connectors| => connectors[c].(zIndex := z))
  }

  /** The whole synthesis: the loop, the final layer appended to the display
      list (which fails on an empty chain), and z-index 0 on the connectors. */
  function Synthesize(layers: seq<Layer>, style: Style): (r: Result<Synthesis>)
    ensures r.Err? <==> |layers| == 0
    ensures r.Ok? ==>
      && |r.value.connectors| + |r.value.warnings| == |layers| - 1
      && |r.value.display| == |layers| + |r.value.connectors|
      && r.value.display[|r.value.display| - 1] == LayerElem(|layers| - 1)
      && forall c :: 0 <= c < |r.value.connectors| ==> r.value.connectors[c].zIndex == ConnectorZ
  {
    if |layers| == 0 then Err(IndexError)
    else
      var walked := Walk(layers, style, |layers| - 1);
      Ok(Synthesis(WithZIndex(walked.connectors, ConnectorZ),
                   walked.display + [LayerElem(|layers| - 1)],
                   walked.warnings))
  }

  /** The connectors are those of the connectable adjacencies, in chain
      order, each built for its pair with the style's parameter; the warnings
      name exactly the other adjacencies' classes, in chain order. */
  lemma SynthesizeConnectors(layers: seq<Layer>, style: Style)
    requires |layers| > 0
    ensures var s := Synthesize(layers, style).value;
      && |s.connectors| == |ConnectedAdjacencies(layers, |layers| - 1)|
      && (forall c :: 0 <= c < |s.connectors| ==>
            s.connectors[c].source == ConnectedAdjacencies(layers, |layers| - 1)[c])
      && (forall c :: 0 <= c < |s.connectors| ==> BuiltFor(layers, style, s.connectors[c]))
      && s.warnings == MissingConnections(layers, |layers| - 1)
  {
    WalkConnectors(layers, style, |layers| - 1);
  }

  /** Deleting the connectors from the display list leaves the layers in
      order; the connectors appear in order; and each connector sits directly
      between the two layers it bridges. */
  lemma SynthesizeDisplay(layers: seq<Layer>, style: Style)
    requires |layers| > 0
    ensures var s := Synthesize(layers, style).value;
      && LayerIndices(s.display) == Range(|layers|)
      && ConnectorIndices(s.display) == Range(|s.connectors|)
      && (forall j :: 0 <= j < |s.display| && s.display[j].ConnectorElem? ==>
            j + 1 < |s.display| && Bridges(s.connectors, s.display, j, |layers| - 1))
  {
    var k := |layers| - 1;
    var walked := Walk(layers, style, k);
    var s := Synthesize(layers, style).value;
    WalkLayerOrder(layers, style, k);
    WalkConnectorOrder(layers, style, k);
    WalkBridges(layers, style, k);
    IndicesAppend(walked.display, LayerElem(k));
    forall j | 0 <= j < |s.display| && s.display[j].ConnectorElem?
      ensures j + 1 < |s.display| && Bridges(s.connectors, s.display, j, k)
    {
      assert s.display[j] == walked.display[j];
      assert Bridges(walked.connectors, walked.display, j, k);
    }
  }

  /** With no warning the display list is L0, C0, L1, C1, ..., L(N-1). */
  lemma SynthesizeInterleaved(layers: seq<Layer>, style: Style)
    requires |layers| > 0
    requires Synthesize(layers, style).value.warnings == []
    ensures var s := Synthesize(layers, style).value;
      && |s.display| == 2 * |layers| - 1
      && forall j :: 0 <= j < |s.display| ==> s.display[j] == Interleaved(j)
  {
    WalkInterleaved(layers, style, |layers| - 1);
  }

  ghost predicate SameKinds(a: seq<Layer>, b: seq<Layer>) {
    |a| == |b| && forall i :: 0 <= i < |a| ==> a[i].kind == b[i].kind
  }

  /** Synthesis reads only the classes of the layers, never their geometry. */
  lemma {:induction false} WalkKindsOnly(a: seq<Layer>, b: seq<Layer>, style: Style, k: nat)
    requires SameKinds(a, b) && k < |a|
    ensures Walk(a, style, k) == Walk(b, style, k)
    ensures ConnectedAdjacencies(a, k) == ConnectedAdjacencies(b, k)
    ensures MissingConnections(a, k) == MissingConnections(b, k)
  {
    if k > 0 {
      WalkKindsOnly(a, b, style, k - 1);
    }
  }

  /** The whole synthesis reads only the classes of the layers. */
  lemma SynthesizeKindsOnly(a: seq<Layer>, b: seq<Layer>, style: Style)
    requires SameKinds(a, b)
    ensures Synthesize(a, style) == Synthesize(b, style)
  {
    if |a| > 0 {
      WalkKindsOnly(a, b, style, |a| - 1);
    }
  }
}
