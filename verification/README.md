# ManimML neural-network diagram: a Dafny model of its core

This project models the `NeuralNetwork` diagram class of ManimML
(`manim_ml/neural_network/neural_network.py`). A diagram is built from a
linear chain of layers in three steps:

- **Layout** (`Layout`): the layers are placed in one row, left to right.
  Each layer after the first is moved onto its predecessor's centre. It is
  then shifted right by 5% of the frame width plus the two half-widths.
  Every layer gets z-index 2.
- **Connective synthesis** (`Connective`): each adjacent pair of layers gets
  the connector its two classes call for. Feed-forward to feed-forward gets
  an edge connector with the style's edge width. Image to feed-forward gets a
  dot connector with the style's dot radius. Any other pair gets a warning and
  no connector. The same loop builds the display list L0, C?, L1, C?, …,
  L(N-1). Connectors get z-index 0.
- **Recentring** (`Network`): the whole display list is translated so that
  it is centred on the origin.

Two animation plans are derived from a built diagram (`Plans`):

- the forward pass: layer, connector, layer, …, last layer, in a group with
  the requested run time and lag ratio 1.0;
- the creation override: one `Create` per display-list entry, with lag
  ratio 1.0.

`FeedForwardNeuralNetwork` builds the chain from a list of node counts.

Model choices:

- Layers are reduced to what the core reads: a class tag, a width, a centre
  and a z-index.
- Connectors record their kind, the indices of the two layers they bridge,
  and their z-index.
- The display list refers to layers and connectors by index. The connector
  group and the display list share the same connector objects in the
  source, so setting z-index 0 on the group is visible through the display
  list. Indexing models that sharing.
- Animations are tokens that record the element they animate.
- Python's `IndexError` is the `Err(IndexError)` case of a `Result`.

Behaviour of the code worth noting:

- An empty chain raises `IndexError` at `self.input_layers[-1]` (line 76),
  during construction.
- The connector list holds only the connectors that were built. It is
  shorter than N-1 whenever an adjacency was skipped with a warning.
- The forward pass indexes the connector list by layer index (line 89). It
  therefore raises `IndexError` whenever an adjacency was skipped (see
  Findings).
- `passing_flash` is accepted by `make_forward_pass_animation` but not
  passed on to anything.
- Style values are not validated: a negative frame width or edge width is
  used as given.
- Construction happens entirely in `__init__`, so both animation plans
  always see a fully built diagram.

## Model

| member | source | states |
|---|---|---|
| Layout.Spacing | manim_ml/neural_network/neural_network.py:46 | the spacing of two neighbours is at least their two half-widths when the frame width is non-negative, and strictly more when it is positive |
| Layout.ShiftX | manim_ml/neural_network/neural_network.py:48 | the shift moves a centre by the spacing along x and leaves y and z unchanged |
| Layout.MoveIntoRow | manim_ml/neural_network/neural_network.py:41-48 | only centres move; the first layer stays put; each later centre is its predecessor's new centre shifted right by the spacing |
| Layout.PlaceLayers | manim_ml/neural_network/neural_network.py:38-51 | classes and widths are kept and z-index becomes 2; the spacing recurrence holds; with a non-negative frame width, neighbouring layers do not overlap |
| Layout.PlaceLayersClosedForm | manim_ml/neural_network/neural_network.py:41-48 | layer i's x equals the anchor's x, plus i gaps, plus the widths of the layers before it, plus half the difference between its width and the anchor's |
| Layout.PlaceLayersSameRow | manim_ml/neural_network/neural_network.py:47-48 | every placed layer has the anchor's y and z: the row is horizontal |
| Layout.PlaceLayersNoOverlap | manim_ml/neural_network/neural_network.py:46 | any two placed layers, neighbours or not, are at least their two half-widths apart; with a positive frame width, centres strictly increase |
| Layout.PlaceLayersRelative | manim_ml/neural_network/neural_network.py:46-48 | placement depends only on the widths and the anchor; rows with equal widths differ by one translation |
| Connective.Connectable | manim_ml/neural_network/neural_network.py:62-69 | a connector exists for a pair exactly when the second layer is feed-forward and the first is feed-forward or image; every other pair falls through to the warning |
| Connective.Dispatch | manim_ml/neural_network/neural_network.py:62-74 | a connector is chosen exactly for feed-forward to feed-forward and image to feed-forward, with the style's edge width or dot radius respectively |
| Connective.ConnectedAdjacenciesSpec | manim_ml/neural_network/neural_network.py:57-74 | an adjacency is connected iff its pair is connectable; connected adjacencies are in increasing order; connected plus warned equals all adjacencies; no warnings iff all are connected |
| Connective.NoWarningIffAllConnectable | manim_ml/neural_network/neural_network.py:73-74 | no warning is raised exactly when every adjacent pair is connectable |
| Connective.Walk | manim_ml/neural_network/neural_network.py:57-74 | each iteration yields exactly one connector or one warning; the display list grows by one layer and each new connector |
| Connective.WalkConnectors | manim_ml/neural_network/neural_network.py:62-74 | the loop's connectors belong to the connectable adjacencies, in chain order, each built for its pair; the warnings name exactly the other pairs, in order |
| Connective.WalkStep | manim_ml/neural_network/neural_network.py:58-74 | one iteration appends the current layer, then a connector to both lists or a warning, and changes nothing else |
| Connective.WalkLayerOrder | manim_ml/neural_network/neural_network.py:57-59 | with the connectors removed, the loop's display list is layers 0 … k-1 in order |
| Connective.WalkConnectorOrder | manim_ml/neural_network/neural_network.py:64-72 | the connector entries of the display list name connectors 0, 1, … in order |
| Connective.WalkBridges | manim_ml/neural_network/neural_network.py:57-72 | each connector entry sits right after its source layer and right before its target layer |
| Connective.WalkInterleaved | manim_ml/neural_network/neural_network.py:57-72 | with no warning, the display list alternates L0, C0, L1, C1, … |
| Connective.WithZIndex | manim_ml/neural_network/neural_network.py:78 | every connector keeps its kind and endpoints and takes the given z-index |
| Connective.Synthesize | manim_ml/neural_network/neural_network.py:53-79 | fails exactly on an empty chain; otherwise connectors plus warnings number N-1, the display list ends with the last layer, and connectors have z-index 0 |
| Connective.SynthesizeConnectors | manim_ml/neural_network/neural_network.py:53-79 | connectors exist exactly for the connectable adjacencies, in chain order, each built for its pair; warnings exist exactly for the others |
| Connective.SynthesizeDisplay | manim_ml/neural_network/neural_network.py:55-76 | the display list holds every layer once and every connector once, each in order, with each connector between the layers it bridges |
| Connective.SynthesizeInterleaved | manim_ml/neural_network/neural_network.py:55-76 | with no warning, the display list is L0, C0, …, L(N-1), of length 2N-1 |
| Connective.WalkKindsOnly | manim_ml/neural_network/neural_network.py:62-74 | the loop reads only the layers' classes: two chains with the same classes give the same connectors, display list and warnings |
| Connective.SynthesizeKindsOnly | manim_ml/neural_network/neural_network.py:53-79 | the whole synthesis reads only the layers' classes |
| Network.Recentre | manim_ml/neural_network/neural_network.py:35 | every layer keeps everything except its centre, which is translated by the common offset |
| Network.Construct | manim_ml/neural_network/neural_network.py:21-36 | construction fails exactly on an empty chain, and keeps one layer per input layer and one connector or warning per adjacency |
| Network.ConstructSpec | manim_ml/neural_network/neural_network.py:21-36 | a built diagram is coherent (connectors, warnings and display list as above); its layers keep class and width, have z-index 2, start at the recentred anchor and follow the spacing recurrence; each connector is the dispatched one for its pair, with z-index 0 |
| Network.RecentredRow | manim_ml/neural_network/neural_network.py:32-35 | recentring the placed row keeps classes, widths, z-index 2 and the spacing recurrence, and moves the anchor by the offset |
| Network.ConstructSameStructure | manim_ml/neural_network/neural_network.py:32-35 | chains with the same classes build the same connectors, display list and warnings, whatever their geometry and recentring |
| Network.ConstructRelativeGeometry | manim_ml/neural_network/neural_network.py:32-35 | chains with the same classes and widths build layers that differ by one common translation |
| Network.RecentredRelative | manim_ml/neural_network/neural_network.py:35 | two recentred rows with equal widths differ by one translation at every layer |
| Network.FeedForwardLayers | manim_ml/neural_network/neural_network.py:121-124 | one feed-forward layer per node count, in order, with the width and starting centre the layer class gives that count, and the default z-index |
| Network.FeedForwardNeuralNetwork | manim_ml/neural_network/neural_network.py:115-126 | fails exactly on an empty count list; otherwise has one layer per count |
| Network.FeedForwardSpec | manim_ml/neural_network/neural_network.py:115-126 | a feed-forward network is coherent, has no warning, and has N-1 edge connectors with the style's edge width, connector c bridging layers c and c+1 |
| Network.ConstructFeedForward | manim_ml/neural_network/neural_network.py:62-67 | building a chain of feed-forward layers gives no warning, and every adjacency gets an edge connector in chain order |
| Network.FeedForwardChain | manim_ml/neural_network/neural_network.py:62-67 | in a coherent all-feed-forward diagram whose connectors were dispatched for their pairs, connector c is the edge connector from layer c to layer c+1 with z-index 0 |
| Network.AllFeedForwardChain | manim_ml/neural_network/neural_network.py:57-74 | a coherent all-feed-forward diagram has no warning and connects every pair, in chain order |
| Plans.ForwardPassSteps | manim_ml/neural_network/neural_network.py:85-91 | the loop succeeds iff the connector list is at least as long as the number of iterations, and then yields L0, C0, L1, C1, …; otherwise it fails with IndexError |
| Plans.ForwardPassPlan | manim_ml/neural_network/neural_network.py:81-99 | the plan exists iff 0 < N <= connectors + 1; it then has 2N-1 steps in alternating order, the requested run time and lag ratio 1.0; otherwise it fails with IndexError |
| Plans.ForwardPassPlanSucceedsIff | manim_ml/neural_network/neural_network.py:85-91 | on a built diagram the forward pass succeeds iff no adjacency was skipped; then connector i bridges layers i and i+1 |
| Plans.SkippedAdjacencyFails | manim_ml/neural_network/neural_network.py:89 | with classes FeedForward, FeedForward, Other: one warning, one connector, and the forward pass fails with IndexError |
| Plans.ForwardPassPlanFixed | manim_ml/neural_network/neural_network.py:81-99 | the corrected forward pass has one forward-pass step per display entry, in display order, with the requested run time and lag ratio 1.0 |
| Plans.ForwardPassPlanFixedCoversChain | manim_ml/neural_network/neural_network.py:81-99 | the corrected plan animates every layer once in chain order and every connector once in order, each connector between the layers it bridges |
| Plans.ForwardPassPlanFixedAgrees | manim_ml/neural_network/neural_network.py:85-97 | wherever the plan as written succeeds, it equals the corrected plan |
| Plans.SkippedAdjacencyFixed | manim_ml/neural_network/neural_network.py:85-95 | on the chain FeedForward, FeedForward, Other, the corrected plan animates layers 0, 1, 2 and connector 0 |
| Plans.FeedForwardPassSucceeds | manim_ml/neural_network/neural_network.py:115-126 | a feed-forward network always has a forward pass, with 2N-1 steps |
| Plans.CreatePlan | manim_ml/neural_network/neural_network.py:101-113 | one creation step per display entry, in display order, with no run-time override and lag ratio 1.0 |
| Plans.CreatePlanBuildsWholeDiagram | manim_ml/neural_network/neural_network.py:107-111 | on a built diagram, every layer is created exactly once in chain order and every connector exactly once in order, and the last step creates the last layer |
| Plans.LastIsLayer | manim_ml/neural_network/neural_network.py:76 | the display list of a built diagram ends with the last layer |

## Left out

- Network.Construct: the recentring offset is an input. Measuring the
  bounding box of the laid-out diagram needs each layer's and connector's
  drawn geometry, so the model does not prove that the result is centred on
  the origin (line 35). It proves only that one common translation is
  applied to every layer.
- Rendering: adding to the `VGroup`s, `self.add`, and each layer's and
  connector's drawing are not modelled. Connectors are records of their kind
  and endpoints.
- The layers' and connectors' own forward-pass animations (lines 86, 90 and
  94) are opaque tokens. `Create` (line 108) is a token too.
- Animation timing is not modelled: how `AnimationGroup` spreads the run
  time and how durations add up under lag ratio 1.0. The plans record only
  the run time and lag ratio they request.
- Colours (`edge_color`, `animation_dot_color`, `node_color`) and the unused
  `layer_spacing` option are not modelled, since the core logic never reads
  them.
- `node_radius` and `node_color` reach the model only through the
  `layerWidth` function. It gives a feed-forward layer's width from its node
  count, because that width depends on drawing code that is not part of this
  model. Likewise `layerCenter` gives the centre at which `FeedForwardLayer`
  creates a layer; the layer class is not part of this model.
- `passing_flash` is accepted and ignored by the source. The model has no
  such parameter.
- `_create_override` ignores its keyword arguments (line 102), so a
  `run_time` passed to `Create` is dropped. The model's `CreatePlan` takes
  no such argument and always leaves the run time unset.
- Floating-point arithmetic: positions and widths are mathematical reals.
  Rounding is not modelled.
- The `warnings` module: warnings are collected in a list rather than
  emitted.
- `isinstance` subclass checks become an exact class tag. A subclass of
  `FeedForwardLayer` or `ImageLayer` is modelled by the tag of the class it
  extends.
- Passing the same layer object twice in the input (which `VGroup`
  deduplicates) is not modelled. Layers are values.
- `config.frame_width` is a parameter (`frameWidth`).

## Findings

| source | as written | input that shows it | evidently intended | confidence | as-written member | corrected member |
|---|---|---|---|---|---|---|
| manim_ml/neural_network/neural_network.py:89 | the forward pass indexes the connector list by layer index, but that list omits every skipped adjacency | layers of classes FeedForward, FeedForward, Other: one connector, one warning, and the loop asks for connector 1 and raises IndexError | skip the missing connector, as the recoverable warning at line 74 suggests, and animate each built element in display order | medium, not executed | Plans.SkippedAdjacencyFails | Plans.ForwardPassPlanFixed |

`Plans.ForwardPassPlanSucceedsIff` generalises the finding: on any built
diagram, the plan as written succeeds exactly when no adjacency was skipped.
`Plans.ForwardPassPlanFixedCoversChain` proves that the corrected plan
covers the whole chain. `Plans.ForwardPassPlanFixedAgrees` proves that it
equals the plan as written wherever the latter succeeds.
