/** The values a neural-network diagram is built from: layers, connective
    layers, entries of the display list and diagnostics. Rendering objects are
    reduced to the attributes the layout and connector logic reads. */
module Elements {

  /** A centre in scene coordinates (manim's three-component points). */
  datatype Point = Point(x: real, y: real, z: real)

  function Translate(p: Point, offset: Point): Point {
    Point(p.x + offset.x, p.y + offset.y, p.z + offset.z)
  }

  /** The layer classes the connector dispatch tells apart. */
  datatype LayerKind = FeedForward | Image | Other

  /** A layer: its class, its bounding-box width, its centre and its z-index. */
  datatype Layer = Layer(kind: LayerKind, width: real, center: Point, zIndex: int)

  datatype ConnectorKind =
    | FeedForwardToFeedForward(edgeWidth: real)
    | ImageToFeedForward(dotRadius: real)

  /** A connective layer drawn from layer `source` to layer `target`. */
  datatype Connector = Connector(kind: ConnectorKind, source: nat, target: nat, zIndex: int)

  /** An entry of the display list: the index of a layer or of a connector. */
  datatype Element = LayerElem(layer: nat) | ConnectorElem(connector: nat)

  /** The diagnostic for an adjacent pair no connector is implemented for. */
  datatype Warning = UnimplementedConnection(from: LayerKind, to: LayerKind)

  /** Python's IndexError: a list was indexed out of range. */
  datatype Error = IndexError

  datatype Option<+T> = None | Some(value: T)

  datatype Result<+T> = Ok(value: T) | Err(error: Error)

  /** z-index of a freshly created mobject. */
  const DefaultZ: int := 0
  /** z-index given to every layer, so that layers render above connectors. */
  const LayerZ: int := 2
  /** z-index given to every connector. */
  const ConnectorZ: int := 0

  /** The indices 0, 1, ..., n - 1. */
  function Range(n: nat): (r: seq<nat>)
    ensures |r| == n
    ensures forall i :: 0 <= i < n ==> r[i] == i
  {
    if n == 0 then [] else Range(n - 1) + [n - 1]
  }

  /** The layer indices of a display list, in display order. */
  function LayerIndices(display: seq<Element>): seq<nat> {
    if |display| == 0 then []
    else
      var last := display[|display| - 1];
      LayerIndices(display[..|display| - 1]) + (if last.LayerElem? then [last.layer] else [])
  }

  /** The connector indices of a display list, in display order. */
  function ConnectorIndices(display: seq<Element>): seq<nat> {
    if |display| == 0 then []
    else
      var last := display[|display| - 1];
      ConnectorIndices(display[..|display| - 1]) + (if last.ConnectorElem? then [last.connector] else [])
  }

  lemma IndicesAppend(display: seq<Element>, e: Element)
    ensures LayerIndices(display + [e]) == LayerIndices(display) + (if e.LayerElem? then [e.layer] else [])
    ensures ConnectorIndices(display + [e]) == ConnectorIndices(display) + (if e.ConnectorElem? then [e.connector] else [])
  {
  }

  /** The j-th entry of the alternating list L0, C0, L1, C1, ... */
  function Interleaved(j: nat): Element {
    if j % 2 == 0 then LayerElem(j / 2) else ConnectorElem(j / 2)
  }
}
