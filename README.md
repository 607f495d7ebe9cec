# infeynity: Feynman diagram particles and the random diagram generator

infeynity draws random Feynman diagrams. This project models the two files
at its core and proves properties about them:

- `src/feynman.js` holds the graph. A `Particle` (an `Electron`, `Positron`
  or `Photon`, each with its charge) keeps a list of its vertices, never
  more than two, and a list of its neighbouring particles. A `Vertex` links
  its particles on construction. It can list its neighbouring vertices and
  find the particle it shares with a given neighbour. An `OriginVertex` is a
  vertex of one particle, marked as an origin. The module builds a fixed
  example diagram: an electron line (`e1`, `v1`, `ev1`, `v2`, `e2`) and a
  positron line (`p1`, `v3`, `pv1`, `v4`, `p2`), joined by the photons `gv1`
  and `gv2`, with an origin vertex on each of `e1`, `e2`, `p1` and `p2`.
- `src/generator.js` holds the generator. A `Generator` draws two input
  particle classes and their outputs: the same pair, or the pair reversed.
  `generate` then builds a diagram. It starts with one particle per input
  and output, each linked to its incoming or outgoing vertex. It then
  repeatedly takes a random particle that still misses an end (`from` or
  `to`) and builds a vertex for that end. The vertex type is sampled among
  the types that can serve as that end. Every other output slot is filled
  by `chooseFrom` with a particle whose `from` end is missing, and every
  other input slot by `chooseTo` with a particle whose `to` end is missing.
  Each is either reused from `unlinked` or freshly minted as a virtual
  particle. `generate` stops once no particle misses an end.

The Dafny model has four modules:

- `Wrappers` holds `Option` and `Result`.
- `Sequences` holds the array helpers (`filter`, `includes`) stated on
  sequences.
- `Feynman` (`feynman.dfy`) models `src/feynman.js`. Particles and vertices
  live in an arena: the `Graph` class has sequences of particle and vertex
  records indexed by id, and its methods update them in place. The
  reference-typed arrays of the source become lists of ids.
- `DiagramGenerator` (`generator.dfy`) models `src/generator.js`. The
  `Generator` class holds the generator's state (`unlinked`, `virtuals`,
  `vertices`, inputs and outputs) as fields that its methods reassign. It
  also holds an arena of particles, each with its class and its two
  optional ends, and an arena of vertices.
  - `Math.random` is a `RandomSource`: an injected stream of reals in which
    call `k` returns `values(k)`. `sample`, the `Generator` constructor,
    `randomParticleOfType`, `takeUnlinkedParticle` and the draw of a vertex
    type state which values they read. The methods that fill a vertex's
    slots do not (see "Left out").
  - `Math.floor(Math.random() * n)` and the coin `Math.random() < (1/n)*0.4`
    are stated with `Scale(x, n)`, which adds `x` to itself `n` times.
    `ScaleProduct` proves that this is `x * n`, and `MintThreshold` that the
    coin is the source's comparison.
  - The vertex types, which live in a file outside this model, are a
    `Table` parameter. It gives each type's input and output slot classes,
    and for each particle class the types that can be its `from` and its
    `to` vertex.

The central invariant is `Generator.Inv`. Between two iterations of
`generate`, every particle in `unlinked` misses exactly one end and every
other particle misses none. `Generate` is proved to keep it. With it, the
model proves the following:

- The "completely linked" throw of `generateVertex` is unreachable from
  `generate`.
- No vertex ever links an end that is already set.
- A diagram returned by `generate` has every particle linked at both ends.

## Model

| member | source | states |
|---|---|---|
| Feynman.Charge | src/feynman.js:24-40 | the charge each particle class passes to the `Particle` constructor: -1, +1, 0; zero exactly for photons |
| Feynman.Graph.NewParticle | src/feynman.js:1-6 | a new particle gets the next id, the given charge and empty neighbour and vertex lists; nothing else changes |
| Feynman.WithNeighbour | src/feynman.js:8-12 | `addNeighbour` leaves the list unchanged exactly when the particle is itself or already listed, otherwise appends it; it never adds the particle itself and keeps the list duplicate-free |
| Feynman.Graph.AddNeighbour | src/feynman.js:8-12 | updates only particle `p`'s neighbour list, as `WithNeighbour` says; keeps the graph well formed, and keeps `Valid` (every particle has every other particle of its vertices as a neighbour) when it held |
| Feynman.Graph.AddNeighbours | src/feynman.js:18-20 | the `forEach` of `addVertex`: particle `p`'s neighbours become `WithNeighbours` of the vertex's particles; nothing else changes and the graph stays well formed |
| Feynman.WithNeighbours | src/feynman.js:18-20 | adding each particle of a vertex in turn extends the old list (as a prefix), adds every particle but the particle itself and nothing else, and keeps it duplicate-free |
| Feynman.AttachVertex | src/feynman.js:14-21 | `addVertex` is a no-op for a vertex already present; it throws exactly when the vertex is new and two are already there; otherwise it appends the vertex, keeps the charge and adds every other particle of the vertex as a neighbour, and no neighbour that is neither an old one nor such a particle |
| Feynman.AttachVertexOk | src/feynman.js:14-21 | `addVertex` keeps a particle record well formed: at most two distinct vertices, and duplicate-free neighbours that exclude the particle itself |
| Feynman.Graph.AddVertex | src/feynman.js:14-21 | updates particle `p` exactly as `AttachVertex` says, or reports its error and changes nothing; on success every other particle of the vertex is a neighbour of `p`; the graph stays `Valid`, so every particle still has every other particle of its vertices as a neighbour |
| Feynman.LinkAll | src/feynman.js:43-48 | the `forEach` of the `Vertex` constructor keeps the arena size and, when it throws, names a particle of the vertex |
| Feynman.LinkAllStops | src/feynman.js:45-47 | once a particle has thrown, the later particles are not visited |
| Feynman.LinkAllFrame | src/feynman.js:45-47 | particles that are not on the vertex are untouched |
| Feynman.LinkAllOk | src/feynman.js:45-47 | every particle record stays well formed, whether or not the constructor throws |
| Feynman.LinkAllFresh | src/feynman.js:43-48 | for a new vertex, the constructor does not throw exactly when every particle on it had fewer than two vertices; then each of them has the vertex appended |
| Feynman.LinkAllFailure | src/feynman.js:14-21 | when the constructor throws, the particle that throws has two other vertices, and every particle before it already holds the new vertex (the partial update the exception leaves behind) |
| Feynman.LinkAllLinked | src/feynman.js:45-47 | after a run that does not throw, every particle of the vertex holds it |
| Feynman.LinkAllNewVertex | src/feynman.js:42-48 | the constructor's whole effect on a new vertex: particles off the vertex unchanged, success iff all had fewer than two vertices, each linked by `addVertex` |
| Feynman.Graph.LinkEach | src/feynman.js:45-47 | the loop over the particles leaves the arena exactly as `LinkAll` does and reports the first particle that throws |
| Feynman.Graph.NewVertex | src/feynman.js:42-48 | `new Vertex(...ps)` appends a vertex record; it fails iff some particle had two vertices; on success each particle of the vertex gets it appended and the others are unchanged |
| Feynman.Graph.NewOriginVertex | src/feynman.js:61-66 | `new OriginVertex(p)`: a one-particle vertex marked as origin, linked to `p` unless `p` already has two vertices |
| Feynman.NewVertices | src/feynman.js:52 | the filter in `neighbours` keeps exactly the vertices that are neither already listed nor the vertex itself |
| Feynman.NeighbourListSpec | src/feynman.js:50-54 | `neighbours` lists every vertex other than itself that shares a particle with the vertex, and each of them once |
| Feynman.NewVerticesConcat | src/feynman.js:52 | the filter keeps the order of the list it filters: filtering a concatenation concatenates the filtered halves |
| Feynman.FirstsConcat | src/feynman.js:50-54 | taking first occurrences of a concatenation takes those of the first half, then those of the second half not already taken |
| Feynman.FirstsFilter | src/feynman.js:52 | on a duplicate-free list, taking first occurrences is the filter of `neighbours` |
| Feynman.NeighbourListFirsts | src/feynman.js:50-54 | the `reduce` of `neighbours` lists the first occurrence of each vertex, other than the vertex itself, in the concatenated vertex lists of its particles, in that order |
| Feynman.NeighbourListPrefix | src/feynman.js:50-54 | the list is ordered by particle: the neighbours through the first `k` particles form a prefix |
| Feynman.Graph.Neighbours | src/feynman.js:50-54 | the `neighbours` getter on the arena: duplicate-free, without the vertex itself, exactly the vertices sharing one of its particles, and in full order: the first occurrence of each in the particles' vertex lists taken one after another |
| Feynman.FirstWith | src/feynman.js:57 | `find` gives the first position whose particle lies on `w`, or none when no particle does |
| Feynman.Graph.ParticleOfNeighbour | src/feynman.js:56-58 | `particleOfNeighbour(w)` is the first particle of the vertex that also lies on `w`, and `undefined` iff none does |
| Feynman.FixtureParticles | src/feynman.js:68-75 | the eight particles of the example, in order, with their charges and empty lists |
| Feynman.FixtureVertex | src/feynman.js:77-80 | an inner vertex of three distinct particles with room left: appended, and each of the three gains it |
| Feynman.FixtureOrigin | src/feynman.js:82-85 | an origin vertex of one particle with room left: appended, and the particle gains it |
| Feynman.FixtureElectronLine | src/feynman.js:77-78 | `v1` and `v2` join `e1`, `ev1`, `gv1` and `ev1`, `e2`, `gv2`; the vertex lists of all eight particles afterwards |
| Feynman.FixturePositronLine | src/feynman.js:79-80 | `v3` and `v4` join `p1`, `gv1`, `pv1` and `pv1`, `gv2`, `p2`; the photons now join an electron and a positron line |
| Feynman.FixtureOrigins | src/feynman.js:82-85 | the four origin vertices on `e1`, `e2`, `p1`, `p2` |
| Feynman.NeighbourListPair | src/feynman.js:51-53 | one step of the `reduce`: a particle whose vertices are `self` and `w`, with `w` not yet listed, appends exactly `w` |
| Feynman.FixtureGraph | src/feynman.js:68-85 | the sixteen constructions of the example: a `Valid` graph of eight particles, the vertex list of each particle, and the eight vertex records (`v1` to `v4`, then `ov1` to `ov4`) |
| Feynman.FixtureNeighbours | src/feynman.js:77-82 | the neighbours of `v1` in the example are `ov1`, `v2`, `v3`, in that order |
| Feynman.Fixture | src/feynman.js:68-98 | the example diagram is well formed; `allParticles` and `allVertices` list all eight particles and all eight vertices; every particle has exactly two vertices; the first four vertices are the origins; the neighbours of `v1` are `ov1`, `v2`, `v3` |
| Sequences.Without | src/generator.js:139 | the `filter` of `takeSpecificUnlinkedParticle` drops every occurrence of the particle and keeps the rest, with their counts |
| Sequences.WithoutConcat | src/generator.js:139 | dropping works piecewise, so the particles left keep their relative order |
| Sequences.WithoutNoDuplicates | src/generator.js:139 | dropping keeps a duplicate-free list duplicate-free |
| DiagramGenerator.ScaleProduct | src/generator.js:6 | `Scale(x, n)`, the repeated addition the model uses, is the product `x * n` |
| DiagramGenerator.SampleIndex | src/generator.js:6-9 | the index drawn by `sample` is always in range, and is `floor(x * n)` for `x` in [0, 1) |
| DiagramGenerator.Sample | src/generator.js:3-10 | `sample` returns null iff the array is empty, the only element of a one-element array, and otherwise some element |
| DiagramGenerator.SampleReaches | src/generator.js:3-10 | every element of a non-empty array is returned for some value of `Math.random()` in [0, 1) |
| DiagramGenerator.SampleUnread | src/generator.js:4-5 | when `sample` reads no value (`SampleDraws` is 0, fewer than two elements), its result does not depend on the value |
| DiagramGenerator.RandomSource.Next | src/generator.js:145 | one call of `Math.random()` returns the next value of the stream and advances it by one |
| DiagramGenerator.RandomSource.SampleOf | src/generator.js:3-10 | `sample` returns `Sample` of the next random value and reads the stream only for two or more elements |
| DiagramGenerator.RandomParticleType | src/generator.js:12-14 | one of the three particle classes, drawn with one random value |
| DiagramGenerator.Generator.constructor | src/generator.js:17-20 | two random input classes; the outputs are the inputs, or the inputs reversed, on a coin; the outputs are a permutation of the inputs; exactly three random values are read |
| DiagramGenerator.MintThreshold | src/generator.js:145 | with `n > 0` virtual particles, `Mint(x, n)` holds exactly when `x < (1 / n) * 0.4` |
| DiagramGenerator.RandomSource.SampleOrMint | src/generator.js:144-145 | the draws of `randomParticleOfType`: `sample` of the candidates at the next value; then, only if it found one, the coin at the value after; mint iff nothing was found or the coin holds; one or two values read accordingly |
| DiagramGenerator.Generator.TakeSpecificUnlinkedParticle | src/generator.js:138-141 | returns `p`; `unlinked` loses `p` and keeps the order of the rest |
| DiagramGenerator.Generator.TakeUnlinkedParticle | src/generator.js:133-136 | a sampled particle, taken out of `unlinked`; none, with `unlinked` unchanged, when it is empty |
| DiagramGenerator.Generator.GenerateParticleOfType | src/generator.js:151-156 | a fresh particle of class `k` with no ends, appended to the arena, to `unlinked` and to `virtuals` |
| DiagramGenerator.Candidates | src/generator.js:144 | the filter of `randomParticleOfType`: exactly the unlinked particles of class `k` that miss end `e` and are not yet chosen |
| DiagramGenerator.Generator.RandomParticleOfType | src/generator.js:143-149 | mints when there is no candidate or when the coin falls below 0.4 / number of virtuals (always when there are none); otherwise reuses the sampled candidate and takes it out of `unlinked`; the result always has class `k`, misses end `e` and is not yet chosen |
| DiagramGenerator.MintStaged | src/generator.js:151-156 | minting a particle for a slot keeps the generator's bookkeeping |
| DiagramGenerator.ReuseStaged | src/generator.js:148 | reusing an unlinked particle that misses the slot's end keeps the bookkeeping |
| DiagramGenerator.PickStaged | src/generator.js:143-149 | either outcome of `randomParticleOfType` keeps the bookkeeping, and `virtuals` grows by exactly the minted particle |
| DiagramGenerator.Generator.Choose | src/generator.js:79-91 | `chooseFrom`/`chooseTo`: a particle of the slot's class, not yet chosen, minted or unlinked and missing that end, which then waits for that end from the vertex; old particles unchanged; either particle `|particles|` is minted with no ends and appended to `unlinked` and `virtuals`, or an existing one is taken out of `unlinked` and the arena keeps its size |
| DiagramGenerator.PlaceStep | src/generator.js:98-101 | putting the chosen particle into the first slot of its class keeps the filling invariants |
| DiagramGenerator.PickStep | src/generator.js:102 | putting a new pick into the next slot keeps the filling invariants |
| DiagramGenerator.Generator.FillSlots | src/generator.js:96-120 | one `map` over a side's slot classes: each slot holds a particle of its class, no particle twice, the chosen particle in exactly the first slot of its class, every other pick fresh or unlinked missing the slot's end; afterwards `unlinked` is the old list without the slots, followed by every minted particle, and each minted particle fills a slot and has no end set |
| DiagramGenerator.SidesDistinct | src/generator.js:77-91 | the shared `chosen` list keeps the outputs and the inputs of a vertex apart |
| DiagramGenerator.InputsFresh | src/generator.js:104-106 | each input but the chosen particle was minted, or was unlinked missing its `to` end before the outputs were filled |
| DiagramGenerator.PendingAfter | src/generator.js:93-120 | after both sides are filled, the particles waiting for `from` are the outputs, and those waiting for `to` the inputs (plus the chosen particle if it missed both ends) |
| DiagramGenerator.Assemble | src/generator.js:93-120 | the two `map`s of a branch assemble the vertex and leave it ready to link: old particles unchanged, `virtuals` grown by the minted ones, no end to link already set |
| DiagramGenerator.StagedLinkable | src/generator.js:130 | particles that wait on a side miss the end that side links, so the vertex can be constructed |
| DiagramGenerator.AwaitingStaged | src/generator.js:93-107 | a particle taken from `unlinked` that misses an end waits for each end it misses |
| DiagramGenerator.Generator.FillVertex | src/generator.js:93-120 | both `map`s of a branch: old particles unchanged; the vertex they give is built once linked, and linking it settles every particle but a chosen particle still missing its `to`; linking changes only the `to` end of the inputs and the `from` end of the outputs, each new particle is one of the slots (`Relinked`); `unlinked` loses the slots and gains the minted particles, and `virtuals` grows by them |
| DiagramGenerator.FilledTracked | src/generator.js:93-120 | after both `map`s, `unlinked` is the old list without the inputs and outputs, followed by the minted particles, and each minted particle is a slot with no end set |
| DiagramGenerator.RelinkedFrame | src/generator.js:93-130 | `generateVertex` leaves every particle that is not a slot of the new vertex exactly as it was |
| DiagramGenerator.LinkRelinked | src/generator.js:130 | constructing the vertex (`LinkEnds`) sets the `from` end of its outputs and the `to` end of its inputs to the new vertex and leaves every other end and class as it was |
| DiagramGenerator.LinkStaged | src/generator.js:130 | linking the vertex settles the particles it was staged with |
| DiagramGenerator.LinkExtends | src/generator.js:130 | constructing a vertex only sets ends that were unset and never changes a class |
| DiagramGenerator.AssembledLinked | src/generator.js:130 | the constructed vertex is the `to` end of its inputs and the `from` end of its outputs, slots unchanged |
| DiagramGenerator.BuiltLinked | src/generator.js:130 | constructing an assembled vertex builds it |
| DiagramGenerator.ReadyToLink | src/generator.js:93-130 | an assembled, staged vertex, once constructed, is built, settles its particles and only extends the particle arena |
| DiagramGenerator.OnOneSide | src/generator.js:77-91 | a particle among the outputs of a vertex is not among its inputs |
| DiagramGenerator.Generator.ConstructVertex | src/generator.js:130 | `new VertexType(...inputs, ...outputs)` appends an inner vertex and sets the `to` end of its inputs and the `from` end of its outputs; `DoubleLink`, changing nothing, iff the slots cannot all be linked (an end already set, or one particle in two slots of a side) |
| DiagramGenerator.MissingEnd | src/generator.js:93-107 | the end a branch of `generateVertex` links: a missing end whenever one is missing, `from` first (`to` only when `from` is set) |
| DiagramGenerator.Generator.BuildVertex | src/generator.js:93-130 | the success path once a type is drawn: the vertex is built with that type and constructing it never fails; only the slots' ends change, to the new vertex, and each new particle is a slot; `unlinked` loses the slots and gains the minted particles |
| DiagramGenerator.Generator.GenerateVertex | src/generator.js:72-131 | throws iff the particle has both ends (changing nothing); otherwise samples a type for the missing end, `from` first, and fails only when there is none; on failure for lack of a type nothing changes, the stream included, since with no types `sample` reads nothing; on success the vertex is inner, of the type `sample` draws at the next value, with the slots described under `FillSlots` (the chosen particle in exactly the first slot of its class, on the outputs if `from` is missing, else on the inputs); it links every slot's end and changes no other end (`Relinked`), each new particle is a slot, and `unlinked` loses the slots and gains the minted particles |
| DiagramGenerator.SeedStaged | src/generator.js:23-38 | the starting particles, each linked to its origin vertex, are all unlinked and each misses exactly one end |
| DiagramGenerator.TakeAwaiting | src/generator.js:42 | between iterations, the particle taken from `unlinked` misses exactly one end |
| DiagramGenerator.Generator.TakeAwaitingParticle | src/generator.js:42 | `takeUnlinkedParticle()` in the loop: the particle is `sample(unlinked)` at the next value, one value is read iff two or more particles were unlinked, `unlinked` loses exactly that particle, it misses exactly one end, and every other particle is as `Inv` says |
| DiagramGenerator.Generator.Step | src/generator.js:41-46 | one iteration: the particle is `sample(unlinked)` at the next value; the only failure is a class with no vertex type for its missing end, and then nothing changes but `unlinked`, which lost the particle, and the stream; on success `Inv` holds again, one new inner vertex is pushed whose type is `sample` of the possible types at the following value, only the slots' ends change (to the new vertex), `unlinked` is the old list without the particle and the slots plus the minted particles, and `virtuals` grows by the minted particles |
| DiagramGenerator.Generator.PushVertex | src/generator.js:44-45 | `generateVertex` and the push for a particle just taken: on failure nothing changes; on success what `Step` states, with the type drawn at the next value and `unlinked` losing only the slots |
| DiagramGenerator.Generator.Iterate | src/generator.js:41-46 | one iteration as the loop uses it: on success `Generating` holds again (so `Inv` and every end on a vertex holding its particle), the particles are only extended and one new inner vertex is pushed; the only failure is `NoVertexType`, with the arenas and `vertices` unchanged |
| DiagramGenerator.SeedParticles | src/generator.js:26-30 | the starting particles: one per input class with its incoming vertex as `from`, then one per output class with its outgoing vertex as `to`, the other end missing |
| DiagramGenerator.SeedVertices | src/generator.js:29-30 | the origin vertices: incoming vertex `i` for input `i`, then outgoing vertex `n + j` for output `j` |
| DiagramGenerator.Generator.Start | src/generator.js:23-38 | the opening of `generate`: `Generating` holds (each starting particle's end on its origin vertex), `lastId` is 0, the particles are exactly `SeedParticles` of the classes and the vertex arena exactly `SeedVertices`, all of the particles unlinked, no vertices or virtuals |
| DiagramGenerator.GenerateStep | src/generator.js:40-48 | an iteration keeps `Generated`: the inputs and outputs on their origin vertices, every later vertex inner, `vertices` every pushed vertex, `virtuals` every particle minted so far, and every end on a vertex holding the particle |
| DiagramGenerator.SeededStep | src/generator.js:40-48 | extending the particles and pushing a vertex keeps the inputs and outputs on their origin vertices |
| DiagramGenerator.EndsStep | src/generator.js:44-45 | pushing a vertex that links its slots as `Relinked` says keeps every set end on a vertex of the arena holding the particle on the matching side |
| DiagramGenerator.EndsInDiagram | src/generator.js:40-50 | in a finished diagram, each end of a particle is its own incoming or outgoing vertex, or one of the diagram's `vertices` with the particle among its outputs (for `from`) or inputs (for `to`) |
| DiagramGenerator.RangeInner | src/generator.js:44-45 | the vertices past the origins, all inner, form a list of distinct inner vertices |
| DiagramGenerator.DoneLinked | src/generator.js:48 | when `unlinked` is empty, every particle has both ends |
| DiagramGenerator.Generator.Generate | src/generator.js:22-51 | the loop runs at least once and pushes one distinct inner vertex per iteration; it returns only when `unlinked` is empty; the diagram's inputs and outputs are the starting particles on their origin vertices, its virtuals every minted particle, and every particle is linked at both ends; `vertices` is every vertex past the origin vertices, and each end lies on a vertex holding the particle on the matching side; the only failures are a class without a vertex type and running out of fuel |

## Left out

- Geometry, the controllers, the drawing modes, the example diagrams and the
  build configuration: they draw diagrams and play no part in building
  them.
- The console output of `generate` and `generateVertex` and the helpers
  `printInfo`, `printThing` and `printThings`: logging only.
- `Diagram`, `IncomingVertex`, `OutgoingVertex` and the vertex-type classes
  behind `possibleFromVertices`, `possibleToVertices`, `inputTypes` and
  `outputTypes`: these come from a version of `src/feynman.js` that is not
  part of this model. The vertex types are the `Table` parameter. Its
  `Consistent` precondition says every listed type has a slot of the
  particle's class on the side that links the wanted end. The origin
  vertices are the `Incoming` and `Outgoing` records. A `Diagram` is the
  record of its four lists.
- How the hidden vertex constructor links ends is an assumption of the
  model: it sets the `to` end of its inputs and the `from` end of its
  outputs. A second link of an end is a `DoubleLink` error that changes
  nothing. `ConstructVertex` models it that way, and `GenerateVertex` is
  proved never to reach it.
- `lastId` is reset as in the source; the id allocation it serves is not
  modelled. Ids are arena positions, and every call of `Generate` starts
  fresh arenas.
- The generator's particles carry no neighbour or vertex lists of the
  `src/feynman.js` kind: only their class and their two ends, which is what
  `generate` reads.
- `Math.random` is the injected `RandomSource` stream of exact reals.
  Floating-point rounding of `Math.random() * length` and of `(1 / n) * 0.4`
  is not modelled.
- DiagramGenerator.SeedParticles: `IncomingVertex` and `OutgoingVertex` are
  assumed to set the `from` end of an input and the `to` end of an output.
  Their classes are not part of this model.
- DiagramGenerator.Generator.Choose: does not state how many random values
  it reads, because that depends on the candidates at each pick.
- DiagramGenerator.Generator.FillSlots: does not state how many random
  values it reads, for the same reason.
- DiagramGenerator.Generator.FillVertex: does not state how many random
  values it reads.
- DiagramGenerator.Generator.BuildVertex: does not state how many random
  values it reads.
- DiagramGenerator.Generator.GenerateVertex: on success, states which value
  draws the vertex type but not how many values the fills read after it.
- DiagramGenerator.Generator.Step: on success, states which values draw the
  particle and the vertex type but not how many the fills read after them.
- DiagramGenerator.Generator.PushVertex: on success, as `Step`.
- DiagramGenerator.Generator.Iterate: states `Step`'s contract without the
  values read, the particle taken, the new `unlinked` and `Relinked`; of
  the relinking it keeps only `Extends` and what `Generating` states about
  the ends, so that the loop of `Generate` reasons only about
  `Generating`.
- DiagramGenerator.Generator.Generate: does not state which random values
  the run reads.
- Generate: takes a `fuel` bound on the number of iterations, which the
  source does not have. A run that would need more iterations ends in
  `OutOfFuel`. Termination of the source loop is not proved.
- Generate: requires at least one input or output class. The constructor
  always gives two of each, so this only rules out a `generate` on an empty
  configuration. There the source would hand `null` to `generateVertex` and
  crash.
- DiagramGenerator.Generator.TakeUnlinkedParticle: on an empty list the
  source passes `null` on to `takeSpecificUnlinkedParticle`, whose filter
  then removes nothing. The model returns `None` and leaves `unlinked`
  unchanged, which is the same outcome.
- DiagramGenerator.Generator.GenerateVertex: the source reads the slots of
  the sampled type even when `sample` returned `null`, and so throws a
  `TypeError`. The model reports this as `NoVertexType`.
- Feynman.Graph.AddVertex: when `addVertex` throws, the particles of the
  vertex visited before the throw keep their update. The model keeps that
  partial state (see `LinkAllFailure`) but has no exception unwinding
  beyond it.
