# SpikingPredNet core, modelled in Dafny

SpikingPredNet builds spiking predictive-coding networks on top of the brian2 simulator. The
simulator does the numerical work; this project models the deterministic layer around it:

- **Areas and `connect`** (`modules.dfy`, module `Modules`, over `network.dfy`, module `Network`).
  The simulator's network is a registry of named objects. An `Area` registers its populations
  (internal representation IR, prediction-error populations PPE and NPE, and the interneurons of
  each), its synaptic complexes, its spike recorders and its forced-spike generators. Which
  objects it registers depends on its flags. `connect` checks that two areas share a network
  and that the 0/1 matrix `W` has the right shape. It then wires IR of area 1 forward to area 2
  over the nonzero pairs of `W`, and wires area 2's errors back over the swapped lists. The
  area's constructor, `record_variable`, `set_rates`, `set_spikes` and `area[key]` are members
  of an `Area` class, and `connect` is a method. All of them act on a `Net` object. The `Net`
  keeps a ghost `history` of registrations, which is tied to the pure
  specification functions `Plan` (the constructor) and `ConnectPlan` (`connect`). The
  properties are proved about those functions.
- **Neuron presets** (`neuron_model.dfy`, module `NeuronModel`). These are the fixed constants
  of the adaptive exponential integrate-and-fire group and the tag → parameter table of
  `neurons`. `neurons` builds a `Group` and assigns its per-unit parameters in place.
- **Center-surround convergence** (`retina.dfy`, module `Retina`). `Addconverge` builds a
  one-to-one center and an 8-neighbour surround on an `sN × sN` grid. The retina helper is
  built on top of it.
- **Rate plot** (`plots.dfy`, module `Plots`). `rateplot2d` filters spikes to an open time
  window, counts them per unit, pads the counts to `W·H` and reshapes them row-major.

Units are integers throughout:

| quantity | unit |
|---|---|
| voltage | 0.1 mV |
| time and delay | µs |
| current | fA |
| capacitance | pF |
| conductance | pS, as a fraction where it is not whole |

Spike times in the rate plot use one fixed integer unit.

The registry keeps the first object registered under a key, and `net[name]` is taken to return
that one. Every later registration of a taken key is logged in `clashes`; brian2 refuses to run
a network with duplicate names. Populations and recorders are keyed by their name. Synaptic
complexes are keyed by their ordered population pair and their suffix.

`set_spikes` and `record_variable` make no explicit check of the object they are given, but
the simulator calls they make refuse some objects. `set_spikes` (modules.py:62) calls a method
only a spike generator has, so it fails unless IR is a spike set. `record_variable`
(modules.py:65) records `vm`, which only model-neuron populations have. It fails on a Poisson
IR, on a spike-generator IR and on a recorder. The model states both refusals (`AcceptsSchedule`,
`HasVoltage`).

Where the behaviour is as written but evidently unusable, it is proved as written. Connecting
*from* an area whose IR is a spike generator (`IRSet`) with `onlyNPE` off looks up
`a1_interIR`. Such an area never registers that name, so `connect` stops there
(`ConnectFromSpikeSetFails`, `NoInterIRUnlessModelIR`). With `onlyNPE` on, that lookup is not
made. Every forced spike creates a generator named `INITSG`, and so does `initrandom` when IR
is model neurons (it is ignored otherwise). Two forced spikes, or `initrandom` on a
model-neuron IR together with one forced spike, are therefore a name clash
(`ForcedGeneratorsClash`, `PlanGenerators`).

## Model

| member | source | states |
|---|---|---|
| `Network.Register` | modules.py:24-25 | adding an object keeps every earlier entry; a fresh key gets the new entry; the key set grows by exactly that key; a clash is logged iff the key was taken |
| `Network.AddAllEntries` | modules.py:13-56 | after a run of registrations, a key is present iff it was before or some registration used it, and an entry that was present is never replaced |
| `Network.FirstRegistrationWins` | modules.py:46 | a fresh key registered first is what the lookup returns, whatever follows |
| `Network.SoleRegistrationWins` | modules.py:69-70 | a fresh key that only one registration of a run uses resolves to that registration's entry |
| `Network.AddAllClashes` | modules.py:53-56 | a key is logged as a clash iff it was already logged, or it is registered at least twice counting an entry already present |
| `Network.Net.Add` | modules.py:16 | `net.add`: the registry becomes `Register` of the old one and the history grows by that registration |
| `Network.Net.Get` | modules.py:59 | `net[name]` is the registry's `Lookup`: the first entry under `name`, or nothing when the name is absent |
| `Modules.Area.constructor` | modules.py:5-56 | the constructor stores the area's fields and registers exactly `Plan` of its arguments, in order |
| `Modules.AddIRBlock` | modules.py:13-26 | IR is a Poisson group, a spike generator, or model neurons followed by their interneurons and the optional random kick onto IR unit 2 |
| `Modules.AddRecurrenceBlock` | modules.py:27-30 | for model-neuron IR: interIR→IR inhibition, then the delayed IR→IR self-excitation unless plasticity is on |
| `Modules.AddErrorBlock` | modules.py:31-42 | the error populations, their wiring and the feedback, in that order |
| `Modules.AddErrorPopulations` | modules.py:31-35 | PPE, interPPE, NPE and interNPE unless only IR is built |
| `Modules.AddErrorWiring` | modules.py:36-39 | the local inhibition of PPE and NPE and the delayed drive from IR, unless only IR is built |
| `Modules.AddFeedback` | modules.py:40-42 | PPE→IR and NPE→interIR only when the error part exists and IR is model neurons |
| `Modules.AddLateralBlock` | modules.py:43-44 | the plastic all-but-self IR recurrence with suffix P when lateral plasticity is on |
| `Modules.AddRecordBlock` | modules.py:45-52 | the IR spike recorder when recording, and the PPE and NPE recorders unless only IR is built |
| `Modules.AddForcedSpikes` | modules.py:53-56 | the loop over forced spikes registers, per entry, an `INITSG` generator firing at its time and its connection onto its IR unit |
| `Modules.PlanMembership` | modules.py:13-56 | the registrations the constructor makes are exactly the ones `Planned` lists, flag by flag |
| `Modules.InterIROnlyForModelIR` | modules.py:13-22 | IR is always registered with the kind the flags select; the IR interneurons are registered iff IR is neither Poisson nor a spike set |
| `Modules.IRKindInPriorityOrder` | modules.py:13-21 | with its name fresh, IR is looked up as a Poisson group if `IRPoisson`, else a generator if `IRSet`, else model neurons, of size `N` |
| `Modules.NoInterIRUnlessModelIR` | modules.py:17-22 | with its name fresh before, `area_interIR` is registered after the constructor iff IR is model neurons |
| `Modules.LocalInhibitionOfIR` | modules.py:27-28 | interIR→IR one-to-one with weight `wINHIIR` exists iff IR is model neurons |
| `Modules.DelayedSelfExcitation` | modules.py:29-30 | the one-to-one IR→IR connection of weight 35 and delay 20 ms exists iff IR is model neurons and lateral plasticity is off |
| `Modules.PlasticRecurrence` | modules.py:43-44 | the plastic all-but-self IR→IR connection of weight 1, delay 19.9 ms and suffix P exists iff lateral plasticity is on |
| `Modules.ErrorPopulationsUnlessOnlyIR` | modules.py:31-35 | each error population and interneuron group, of size `N` and its behaviour, exists iff only IR is not requested |
| `Modules.ErrorWiringUnlessOnlyIR` | modules.py:36-37 | interPPE→PPE and interNPE→NPE with weight `wINHIPE` exist iff only IR is not requested |
| `Modules.ErrorDriveUnlessOnlyIR` | modules.py:38-39 | IR→interPPE (35) and IR→NPE (`wEXCIPE`), both delayed 0.1 ms, exist iff only IR is not requested |
| `Modules.FeedbackOnlyOntoModelIR` | modules.py:40-42 | PPE→IR (`wEXCIIR`) and NPE→interIR (35) exist iff the error part exists and IR is model neurons |
| `Modules.IRSpikeRecorder` | modules.py:45-47 | the `IR_RECORD` spike recorder on IR exists iff spikes are recorded |
| `Modules.ErrorSpikeRecorders` | modules.py:48-52 | the PPE and NPE spike recorders exist iff spikes are recorded and only IR is not requested |
| `Modules.PlanNaming` | modules.py:13-56 | every key the constructor registers belongs to the area (`name_role` or `name_role_RECORD`) or is the shared `INITSG` |
| `Modules.MemberInjective` | modules.py:32-35 | two names of one area with different roles are different |
| `Modules.MemberNotInitSG` | modules.py:24 | no area member is called `INITSG` |
| `Modules.AreaRegistrations` | modules.py:13-56 | after the constructor a key is registered iff it was before or a planned registration uses it |
| `Modules.PlanGenerators` | modules.py:23-56 | the constructor registers `INITSG` once for the random kick (model-neuron IR only) and once per forced spike |
| `Modules.ForcedSpikesGenerators` | modules.py:53-55 | the forced-spike loop registers `INITSG` exactly once per entry |
| `Modules.IRBlockGenerators` | modules.py:23-25 | the IR block registers `INITSG` once iff IR is model neurons and the random kick is on |
| `Modules.ForcedGeneratorsClash` | modules.py:23-56 | with `INITSG` free before, it is logged as a clash iff the constructor creates two or more generators |
| `Modules.IRRecorderAfterConstruction` | modules.py:45-47 | with recording on and the name free, `area['IR']` is the IR spike recorder |
| `Modules.Area.RecordVariable` | modules.py:64-67 | a missing `area_pop`, or one without `vm` (anything but model neurons), fails and changes nothing; otherwise a `vm` state recorder named `area_name_RECORD` on it is registered |
| `Modules.RecordIRAfterConstruction` | modules.py:64-67 | after the constructor, recording IR's `vm` succeeds iff IR is model neurons, and otherwise fails for lack of `vm` |
| `Modules.Area.GetItem` | modules.py:69-70 | `area[key]` is the lookup of `area_key_RECORD` |
| `Modules.RecordingThenItem` | modules.py:64-70 | `record_variable(pop, n)` then `area[n]` gives the new `vm` recorder on `area_pop` when the name was free, else the earlier holder |
| `Modules.Area.SetRates` | modules.py:58-59 | succeeds iff `area_IR` is registered |
| `Modules.Area.SetSpikes` | modules.py:61-62 | succeeds iff `area_IR` is registered and is a spike generator |
| `Modules.SetSpikesAfterConstruction` | modules.py:61-62 | after the constructor, `set_spikes` is accepted iff IR is a spike set and not Poisson |
| `Modules.NonZeroExact` | modules.py:77 | `W.nonzero()` gives aligned lists whose pairs are exactly the in-range nonzero entries, in strict row-major order |
| `Modules.RunStepsDone` | modules.py:78-86 | a run of wiring steps completes iff every step's names resolve, and then registers one connection per step |
| `Modules.RunStepsStops` | modules.py:78-86 | a run stops at the first step with a missing name, naming the missing source or else the target, after registering the earlier steps |
| `Modules.RunStepsEnds` | modules.py:78-86 | a run either completes or reports a missing name |
| `Modules.RunStepsEmitted` | modules.py:78-86 | every registered connection is the connection of one of the steps |
| `Modules.WireByName` | modules.py:79 | one `synapses(net[src], net[dst], ...)` call: looks up the source, then the target, and registers only when both exist |
| `Modules.WirePair` | modules.py:78-81 | two optional calls in order, the second not attempted after a failed first |
| `Modules.Connect` | modules.py:73-86 | `connect` registers exactly `ConnectPlan`'s connections and ends with its outcome |
| `Modules.ConnectChecks` | modules.py:74-75 | `connect` fails on different networks, else on a shape other than `(a1.N, a2.N)`, and then registers nothing |
| `Modules.ConnectPatterns` | modules.py:77-86 | every connection `connect` makes has no delay; it is either from `a1_IR` over the nonzero pairs, or, only for a non-Poisson area 1, onto `a1_interIR` or `a1_IR` over the swapped pairs |
| `Modules.ConnectCompletes` | modules.py:77-86 | with a right-shaped `W`, `connect` completes iff every name it looks up exists, and then makes one forward connection per error population not switched off, and as many backward ones unless area 1 is Poisson |
| `Modules.ConnectRegisters` | modules.py:78-86 | a completed `connect` registers IR→PPE (`wEXCIPE`) unless only NPE, IR→interNPE (35) unless only PPE, and, unless area 1 is Poisson, PPE→interIR (35) and NPE→IR (`wEXCIIR`) over the swapped lists |
| `Modules.ConnectFromSpikeSetFails` | modules.py:82-84 | from a non-Poisson area 1 without `a1_interIR`, `connect` makes its forward connections and then fails on the missing `a1_interIR` |
| `NeuronModel.Preset` | neuron_model.py:29-46 | a preset exists iff the tag is `rs`, `b` or `fs` |
| `NeuronModel.Neurons` | neuron_model.py:12-48 | `neurons` (tag `rs` and an empty name by default) refuses any other tag with `NotImplementedError`; otherwise it returns a fresh group of `n` units, all at `vm = EL`, each carrying the four parameters of the preset |
| `NeuronModel.Group.constructor` | neuron_model.py:24-26 | a new group has `n` units with every variable at zero |
| `NeuronModel.Group.Assign` | neuron_model.py:30-44 | a branch sets all four per-unit parameters on every unit and leaves `vm` alone |
| `NeuronModel.RestBelowCutoff` | neuron_model.py:7-10 | `Vcut = VT + 5·DeltaT = -40.4 mV`, above the rest potential, so units at rest do not fire |
| `NeuronModel.ResetQuiets` | neuron_model.py:24-25 | for every accepted tag the reset puts `vm` below `Vcut` and never lowers `w` |
| `NeuronModel.PresetsPositive` | neuron_model.py:30-44 | every preset has a positive `tauw` and a positive, well-formed `a` |
| `NeuronModel.FastSpikingCoupling` | neuron_model.py:40-42 | the `fs` value of `a` is `2·C/tauw`, equal to 35125/9 pS |
| `NeuronModel.BurstingResetAboveRest` | neuron_model.py:35-39 | the `b` reset is `VT + 5 mV = -45.4 mV`, between rest and cut-off |
| `Retina.FloorSqrt` | other_spiking_processings.py:14 | `sN` is the integer square root: `sN² ≤ N < (sN+1)²` |
| `Retina.FloorSqrtUnique` | other_spiking_processings.py:14 | that root is the only such number |
| `Retina.SquareAccepted` | other_spiking_processings.py:14-15 | every perfect square `t²` has root `t` and can be reshaped |
| `Retina.MovesMembers` | other_spiking_processings.py:16-23 | each direction's block pairs exactly the in-grid cells whose neighbour in that direction is in the grid |
| `Retina.SurroundMembers` | other_spiking_processings.py:16-25 | a cell pair is in the surround iff both cells are in the grid and they are distinct neighbours |
| `Retina.SurroundSymmetric` | other_spiking_processings.py:16-23 | the surround relation is symmetric |
| `Retina.SurroundSize` | other_spiking_processings.py:16-25 | the surround has `4·sN·(sN−1) + 4·(sN−1)²` pairs |
| `Retina.SurroundDegree` | other_spiking_processings.py:16-25 | each cell is the source of one pair per in-grid cell around it |
| `Retina.InteriorDegree` | other_spiking_processings.py:16-25 | interior cells have 8 surround targets |
| `Retina.EdgeDegree` | other_spiking_processings.py:16-25 | edge cells away from the corners have 5 |
| `Retina.CornerDegree` | other_spiking_processings.py:16-25 | corner cells of a grid of side at least 2 have 3 |
| `Retina.IndexDecodes` | other_spiking_processings.py:15 | in the reshaped grid, unit `r·sN + c` sits at row `r`, column `c` |
| `Retina.SourcesTargetsAligned` | other_spiking_processings.py:24-25 | the source and target lists have one entry per surround pair |
| `Retina.SurroundExact` | other_spiking_processings.py:15-25 | the lists wire `i` to `j` iff both are below `sN²` and their cells are neighbours: no self-pair and no wrap across rows |
| `Retina.SurroundInRange` | other_spiking_processings.py:15-25 | every listed pair joins two distinct units below `N` |
| `Retina.ConvergeOutcome` | other_spiking_processings.py:6-15 | convergence completes iff both names are populations and `N` is a perfect square; the one-to-one center with `centerw` comes first and stays when the reshape fails |
| `Retina.ConvergeSurround` | other_spiking_processings.py:13-27 | a completed convergence adds the surround over the grid lists with `surroundw`, with `4·sN·(sN−1) + 4·(sN−1)²` pairs |
| `Retina.RetinaWiring` | other_spiking_processings.py:29-33 | over a population of square size with `retina` free, the retina is a default population of the same size, driven with center 12 and surround −4 |
| `Plots.Max` | plots.py:10 | the maximum is an element and bounds every element |
| `Plots.WindowedMembers` | plots.py:9 | a unit is in the window iff one of its spikes lies strictly between the bounds |
| `Plots.BoundsExcluded` | plots.py:9 | spikes exactly at either bound are not counted |
| `Plots.RatePlotOutcome` | plots.py:9-11 | the plot fails iff the window is empty, or some windowed index does not fit `W·H`, and succeeds otherwise |
| `Plots.PaddedCounts` | plots.py:11 | the padded counts have `W·H` entries, entry `k` counting the windowed spikes of unit `k` |
| `Plots.ReshapeRow` | plots.py:12 | row `r` of the reshape is entries `r·H` to `r·H + H − 1` |
| `Plots.RatePlotCells` | plots.py:9-12 | a successful plot has `W` rows of `H` cells, cell `(r, c)` counting the windowed spikes of unit `r·H + c` |
| `Plots.SumBins` | plots.py:11 | the first `n` bins add up to the number of entries below `n` |
| `Plots.RatePlotTotal` | plots.py:9-12 | the cells of a successful plot add up to the number of spikes in the window |

## Left out

- The adaptive exponential integrate-and-fire equations (neuron_model.py:14-22), Euler
  integration, `exp`, and all floating-point unit arithmetic. Only the constant table, the
  threshold and the reset rule are modelled. The group's `I` and `w` variables are not stored.
- Simulation itself: spike delivery, the Poisson firing rule `rand() < rates·dt` and its 3 ms
  refractory period, and the plasticity (`lateralSTDP`) rule bodies.
- The `synapses` factory is not part of this model, so neither is its naming scheme.
  Connections are keyed by source, target and suffix. The plastic flag and the suffix `P` are
  recorded on the connection.
- The populations the area creates through `neurons(..., behavior='ir' | 'i', net=net)` are
  modelled as abstract registrations (`Neurons(Representation)`, `Neurons(Interneuron)`,
  `Neurons(Default)`), not through `NeuronModel.Neurons`. The `neurons` shown takes no `net`
  argument and refuses those tags.
- The `None` defaults of `wINHIIR` and `wEXCIIR`: weights are integers, and what `synapses`
  does with `None` is outside the shown code.
- The `plastic` argument of `connect`, which the code never reads.
- Modules.Area.SetRates: models only the IR lookup. The periodic `run_regularly` rule it
  installs, and that rule's failure when the network runs on an IR without `rates` (anything but
  a Poisson IR), are not modelled.
- Modules.Area.SetSpikes: models the IR lookup and the refusal of a non-generator IR. The
  schedule handed to the generator is not stored.
- `net[name]` of the simulator is assumed to return the first object registered under `name`.
  `Network.FirstRegistrationWins` and the recorder lookups (`Modules.RecordingThenItem`) rest on
  that assumption.
- Modules.Connect: `W` is a sequence of rows. A `W` with no rows therefore has no column count,
  and the shape check accepts it for any `a2.N`, where numpy's shape would differ. This matters
  only for an area of zero units.
- Retina.Converge: brian2's own refusal of surround target indices beyond the size of `b` is
  not modelled. The retina helper always converges onto a population of equal size.
- Retina.FloorSqrt: `int(np.sqrt(N))` is modelled as the exact integer square root. Floating
  point could round differently for `N` beyond 2^52.
- Spike times are integers in one fixed unit (the forced spikes take seconds, the plot takes
  milliseconds). No unit conversion is modelled.
- `raster_plot` and the `imshow` call of `rateplot2d`: drawing only.
- `spiking_images.py` (file listing, image decoding, pickling, random permutation),
  `simple.py` (not valid Python), `prednet.py` (imports a missing module, no logic) and
  `test.py` (a scratch snippet) are not part of this model.
- GeNN device selection and other brian2 or matplotlib internals.
