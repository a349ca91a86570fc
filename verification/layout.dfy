/** Placement of the layers in one row, left to right: every layer after the
    first is put on its predecessor's centre and shifted right by a gap of a
    fixed fraction of the frame width plus the two layers' half-widths. */
module Layout {
  import opened Elements

  /** Fraction of the frame width left between two neighbouring layers. */
  const GapFraction: real := 0.05

  /** Horizontal distance between the centres of two neighbouring layers:
      a gap of a fixed fraction of the frame width on top of the two
      half-widths, so with a non-negative frame width the two layers'
      extents never overlap, and with a positive one they never touch. */
  function Spacing(frameWidth: real, previousWidth: real, currentWidth: real): (r: real)
    ensures frameWidth >= 0.0 ==> r >= previousWidth / 2.0 + currentWidth / 2.0
    ensures frameWidth > 0.0 ==> r > previousWidth / 2.0 + currentWidth / 2.0
  {
    frameWidth * GapFraction + (previousWidth / 2.0 + currentWidth / 2.0)
  }

  /** A shift along the x axis only. */
  function ShiftX(p: Point, dx: real): (r: Point)
    ensures r.x - p.x == dx && r.y == p.y && r.z == p.z
  {
    Translate(p, Point(dx, 0.0, 0.0))
  }

  /** The positioning loop: moves every layer after the first onto its
      predecessor's (already moved) centre, then shifts it right. Only
      centres change. */
  function MoveIntoRow(layers: seq<Layer>, frameWidth: real): (moved: seq<Layer>)
    ensures |moved| == |layers|
    ensures forall i :: 0 <= i < |layers| ==> moved[i] == layers[i].(center := moved[i].center)
    ensures |layers| > 0 ==> moved[0] == layers[0]
    ensures forall i :: 1 <= i < |layers| ==>
      moved[i].center == ShiftX(moved[i - 1].center, Spacing(frameWidth, layers[i - 1].width, layers[i].width))
    decreases |layers|
  {
    if |layers| <= 1 then layers
    else
      var front := MoveIntoRow(layers[..|layers| - 1], frameWidth);
      var previous := front[|front| - 1];
      var current := layers[|layers| - 1];
      front + [current.(center := ShiftX(previous.center, Spacing(frameWidth, previous.width, current.width)))]
  }

  /** The layout step of the diagram: the row placement followed by z-index 2
      on every layer. */
  function PlaceLayers(layers: seq<Layer>, frameWidth: real): (placed: seq<Layer>)
    ensures |placed| == |layers|
    ensures forall i :: 0 <= i < |layers| ==>
      placed[i].kind == layers[i].kind && placed[i].width == layers[i].width && placed[i].zIndex == LayerZ
    ensures |layers| > 0 ==> placed[0].center == layers[0].center
    ensures forall i :: 1 <= i < |layers| ==>
      placed[i].center == ShiftX(placed[i - 1].center, Spacing(frameWidth, layers[i - 1].width, layers[i].width))
    ensures frameWidth >= 0.0 ==> forall i :: 1 <= i < |layers| ==>
      placed[i].center.x - placed[i - 1].center.x >= layers[i - 1].width / 2.0 + layers[i].width / 2.0
  {
    var moved := MoveIntoRow(layers, frameWidth);
    seq(|moved|, i requires 0 <= i < |moved| => moved[i].(zIndex := LayerZ))
  }

  ghost predicate NonNegativeWidths(layers: seq<Layer>) {
    forall i :: 0 <= i < |layers| ==> layers[i].width >= 0.0
  }

  /** Sum of the widths of a sequence of layers. */
  function SumWidths(layers: seq<Layer>): real {
    if |layers| == 0 then 0.0 else SumWidths(layers[..|layers| - 1]) + layers[|layers| - 1].width
  }

  /** Closed form of the recurrence: the i-th centre lies i gaps, the full
      widths of the layers before it, and the difference of the half-widths
      of layer i and layer 0 to the right of the anchor. */
  lemma {:induction false} PlaceLayersClosedForm(layers: seq<Layer>, frameWidth: real, i: nat)
    requires i < |layers|
    ensures PlaceLayers(layers, frameWidth)[i].center.x
      == layers[0].center.x + (i as real) * (frameWidth * GapFraction)
         + SumWidths(layers[..i]) + (layers[i].width - layers[0].width) / 2.0
  {
    if i > 0 {
      PlaceLayersClosedForm(layers, frameWidth, i - 1);
      assert layers[..i][..i - 1] == layers[..i - 1];
      assert SumWidths(layers[..i]) == SumWidths(layers[..i - 1]) + layers[i - 1].width;
      assert ((i - 1) as real) * (frameWidth * GapFraction) + frameWidth * GapFraction
          == (i as real) * (frameWidth * GapFraction);
    }
  }

  /** Every placed layer shares the anchor's vertical and depth coordinates. */
  lemma {:induction false} PlaceLayersSameRow(layers: seq<Layer>, frameWidth: real, i: nat)
    requires i < |layers|
    ensures PlaceLayers(layers, frameWidth)[i].center.y == layers[0].center.y
    ensures PlaceLayers(layers, frameWidth)[i].center.z == layers[0].center.z
  {
    if i > 0 {
      PlaceLayersSameRow(layers, frameWidth, i - 1);
    }
  }

  /** No two placed layers overlap horizontally, neighbours or not; with a
      positive frame width the centres are strictly increasing. */
  lemma {:induction false} PlaceLayersNoOverlap(layers: seq<Layer>, frameWidth: real, i: nat, j: nat)
    requires frameWidth >= 0.0 && NonNegativeWidths(layers)
    requires i < j < |layers|
    ensures PlaceLayers(layers, frameWidth)[j].center.x - PlaceLayers(layers, frameWidth)[i].center.x
      >= layers[i].width / 2.0 + layers[j].width / 2.0
    ensures frameWidth > 0.0 ==> PlaceLayers(layers, frameWidth)[i].center.x < PlaceLayers(layers, frameWidth)[j].center.x
  {
    var placed := PlaceLayers(layers, frameWidth);
    if j > i + 1 {
      PlaceLayersNoOverlap(layers, frameWidth, i, j - 1);
      assert layers[j - 1].width >= 0.0;
    }
  }

  /** Placement depends only on the anchor's centre and on the widths: two
      rows with the same widths differ by the translation between their
      anchors. */
  lemma {:induction false} PlaceLayersRelative(a: seq<Layer>, b: seq<Layer>, frameWidth: real, i: nat)
    requires |a| == |b| && i < |a|
    requires forall k :: 0 <= k < |a| ==> a[k].width == b[k].width
    ensures PlaceLayers(a, frameWidth)[i].center.x - PlaceLayers(b, frameWidth)[i].center.x == a[0].center.x - b[0].center.x
    ensures PlaceLayers(a, frameWidth)[i].center.y - PlaceLayers(b, frameWidth)[i].center.y == a[0].center.y - b[0].center.y
    ensures PlaceLayers(a, frameWidth)[i].center.z - PlaceLayers(b, frameWidth)[i].center.z == a[0].center.z - b[0].center.z
  {
    if i > 0 {
      PlaceLayersRelative(a, b, frameWidth, i - 1);
    }
  }
}
