/**
 * A cortical area (internal representation IR, positive and negative prediction-error
 * populations PPE and NPE, and their interneurons) and the inter-area `connect`, both as
 * registrations into the shared network registry.
 *
 * Every population and recorder of an area is named `area + "_" + role`; the wiring the
 * constructor registers depends only on its flags. `Plan` is the specification of the
 * constructor: the registrations it makes, in order.
 */
module Modules {
  import opened Wrappers
  import opened Network

  const IR := "IR"
  const InterIR := "interIR"
  const PPE := "PPE"
  const InterPPE := "interPPE"
  const NPE := "NPE"
  const InterNPE := "interNPE"
  /** Every forced-spike generator is created under this one name. */
  const InitSG := "INITSG"
  /** The fixed weight of the area's driving connections. */
  const Drive := 35
  /** Delays in microseconds: 20 ms, 0.1 ms and 19.9 ms. */
  const RecurrentDelay := 20000
  const ErrorDelay := 100
  const LateralDelay := 19900

  function Member(area: string, role: string): string
  {
    area + "_" + role
  }

  /** The name of the recorder for `role`: `area_role_RECORD`. */
  function RecorderName(area: string, role: string): string
  {
    Member(area, role + "_RECORD")
  }

  /** Every name an area registers under its own prefix. */
  function AreaNames(area: string): set<string>
  {
    {Member(area, IR), Member(area, InterIR), Member(area, PPE), Member(area, InterPPE),
     Member(area, NPE), Member(area, InterNPE),
     RecorderName(area, IR), RecorderName(area, PPE), RecorderName(area, NPE)}
  }

  /** A key registered by area `area`: an area member, or the shared forced-spike generator. */
  predicate WithinArea(area: string, k: Key)
  {
    match k
    case Named(x) => x in AreaNames(area) || x == InitSG
    case Wire(src, dst, _) => (src in AreaNames(area) || src == InitSG) && dst in AreaNames(area)
  }

  /** The constructor's arguments. Spike times are integers in one fixed time unit. */
  datatype Config = Config(
    n: nat, name: string,
    wInhiPE: int, wExciPE: int, wInhiIR: int, wExciIR: int,
    irPoisson: bool, irSet: bool, recordSpikes: bool, onlyIR: bool,
    lateralPlasticity: bool, initRandom: bool, setSpikes: seq<(nat, int)>)

  /** The IR population is made of model neurons (neither a Poisson nor a spike-set input). */
  predicate ModelIR(c: Config)
  {
    !c.irPoisson && !c.irSet
  }

  /** The kind of IR population, chosen in priority order Poisson, spike set, model neurons. */
  function IRKind(c: Config): PopKind
  {
    if c.irPoisson then PoissonRates
    else if c.irSet then Generator([])
    else Neurons(Representation)
  }

  /** How many times the constructor creates a generator named `INITSG`. */
  function ForcedGenerators(c: Config): nat
  {
    (if ModelIR(c) && c.initRandom then 1 else 0) + |c.setSpikes|
  }

  /** The IR population, the IR interneurons and the optional random kick. */
  function IRBlock(c: Config): seq<Registration>
  {
    var ir := Member(c.name, IR);
    if c.irPoisson then [Pop(ir, PoissonRates, c.n)]
    else if c.irSet then [Pop(ir, Generator([]), c.n)]
    else
      [Pop(ir, Neurons(Representation), c.n), Pop(Member(c.name, InterIR), Neurons(Interneuron), c.n)]
      + (if c.initRandom
         then [Pop(InitSG, Generator([(0, 0)]), 1), Conn(InitSG, ir, ToTarget(2), Drive, None, "", false)]
         else [])
  }

  /** Local inhibition of IR and its delayed one-to-one self-excitation. */
  function RecurrenceBlock(c: Config): seq<Registration>
  {
    var ir := Member(c.name, IR);
    if ModelIR(c) then
      [Conn(Member(c.name, InterIR), ir, OneToOne, c.wInhiIR, None, "", false)]
      + (if !c.lateralPlasticity then [Conn(ir, ir, OneToOne, Drive, Some(RecurrentDelay), "", false)] else [])
    else []
  }

  /** The four prediction-error populations. */
  function ErrorPopulations(c: Config): seq<Registration>
  {
    if c.onlyIR then []
    else
      [Pop(Member(c.name, PPE), Neurons(Default), c.n), Pop(Member(c.name, InterPPE), Neurons(Interneuron), c.n),
       Pop(Member(c.name, NPE), Neurons(Default), c.n), Pop(Member(c.name, InterNPE), Neurons(Interneuron), c.n)]
  }

  /** Local inhibition of the error populations and their drive from IR. */
  function ErrorWiring(c: Config): seq<Registration>
  {
    var ir := Member(c.name, IR);
    var ppe, ippe := Member(c.name, PPE), Member(c.name, InterPPE);
    var npe, inpe := Member(c.name, NPE), Member(c.name, InterNPE);
    if c.onlyIR then []
    else
      [Conn(ippe, ppe, OneToOne, c.wInhiPE, None, "", false),
       Conn(inpe, npe, OneToOne, c.wInhiPE, None, "", false),
       Conn(ir, ippe, OneToOne, Drive, Some(ErrorDelay), "", false),
       Conn(ir, npe, OneToOne, c.wExciPE, Some(ErrorDelay), "", false)]
  }

  /** Error feedback onto IR, only when IR is made of model neurons. */
  function Feedback(c: Config): seq<Registration>
  {
    if !c.onlyIR && ModelIR(c) then
      [Conn(Member(c.name, PPE), Member(c.name, IR), OneToOne, c.wExciIR, None, "", false),
       Conn(Member(c.name, NPE), Member(c.name, InterIR), OneToOne, Drive, None, "", false)]
    else []
  }

  /** The prediction-error part of the area. */
  function ErrorBlock(c: Config): seq<Registration>
  {
    ErrorPopulations(c) + ErrorWiring(c) + Feedback(c)
  }

  /** The plastic all-but-self IR recurrence, suffixed 'P'. */
  function LateralBlock(c: Config): seq<Registration>
  {
    var ir := Member(c.name, IR);
    if c.lateralPlasticity then [Conn(ir, ir, AllButSelf, 1, Some(LateralDelay), "P", true)] else []
  }

  /** The spike recorders. */
  function RecordBlock(c: Config): seq<Registration>
  {
    if c.recordSpikes then
      [Mon(RecorderName(c.name, IR), Member(c.name, IR), SpikeTimes)]
      + (if !c.onlyIR
         then [Mon(RecorderName(c.name, PPE), Member(c.name, PPE), SpikeTimes),
               Mon(RecorderName(c.name, NPE), Member(c.name, NPE), SpikeTimes)]
         else [])
    else []
  }

  /** One generator and one connection onto IR unit `index` per forced spike. */
  function ForcedSpike(area: string, spike: (nat, int)): seq<Registration>
  {
    [Pop(InitSG, Generator([(0, spike.1)]), 1),
     Conn(InitSG, Member(area, IR), Pairs([0], [spike.0]), Drive, None, "", false)]
  }

  function ForcedSpikes(area: string, spikes: seq<(nat, int)>): seq<Registration>
  {
    if spikes == [] then []
    else ForcedSpikes(area, spikes[..|spikes| - 1]) + ForcedSpike(area, spikes[|spikes| - 1])
  }

  /** Everything the area constructor registers, in order. */
  function Plan(c: Config): seq<Registration>
  {
    IRBlock(c) + RecurrenceBlock(c) + ErrorBlock(c) + LateralBlock(c) + RecordBlock(c)
    + ForcedSpikes(c.name, c.setSpikes)
  }

  /** The state monitor `record_variable(pop, name)` registers. */
  function Recording(area: string, pop: string, name: string): Registration
  {
    Mon(RecorderName(area, name), Member(area, pop), StateTrace("vm"))
  }

  /** Only model-neuron populations have the membrane potential `vm` a state monitor records. */
  predicate HasVoltage(e: Entry)
  {
    e.Population? && e.kind.Neurons?
  }

  /** Only a spike generator takes a spike schedule. */
  predicate AcceptsSchedule(e: Option<Entry>)
  {
    e.Some? && e.value.Population? && e.value.kind.Generator?
  }

  datatype Failure = NetMismatch | ShapeMismatch | Missing(name: string) | NoVoltage(name: string)

  datatype Outcome = Done | Failed(reason: Failure)

  /** Whether `record_variable` can build its monitor on `area_pop` in registry `r`. */
  function RecordCheck(r: Registry, area: string, pop: string): Outcome
  {
    match Lookup(r, Member(area, pop))
    case None => Failed(Missing(Member(area, pop)))
    case Some(e) => if HasVoltage(e) then Done else Failed(NoVoltage(Member(area, pop)))
  }

  /** What `connect` reads of an area. */
  datatype AreaRef = AreaRef(name: string, n: nat, irPoisson: bool)

  class Area {
    const net: Net
    const name: string
    const n: nat
    const irPoisson: bool
    const irSet: bool

    function Ref(): AreaRef
    {
      AreaRef(name, n, irPoisson)
    }

    constructor (n: nat, name: string, net: Net, wInhiPE: int, wExciPE: int, wInhiIR: int, wExciIR: int,
                 irPoisson: bool, irSet: bool, recordSpikes: bool, onlyIR: bool,
                 lateralPlasticity: bool, initRandom: bool, setSpikes: seq<(nat, int)>)
      requires net.Valid()
      modifies net
      ensures this.net == net && this.name == name && this.n == n
      ensures this.irPoisson == irPoisson && this.irSet == irSet
      ensures net.Valid()
      ensures net.history == old(net.history) + Plan(Config(n, name, wInhiPE, wExciPE, wInhiIR, wExciIR,
                irPoisson, irSet, recordSpikes, onlyIR, lateralPlasticity, initRandom, setSpikes))
    {
      this.net := net;
      this.name := name;
      this.n := n;
      this.irPoisson := irPoisson;
      this.irSet := irSet;
      new;
      var c := Config(n, name, wInhiPE, wExciPE, wInhiIR, wExciIR,
                      irPoisson, irSet, recordSpikes, onlyIR, lateralPlasticity, initRandom, setSpikes);
      ghost var h0 := net.history;
      AddIRBlock(net, c);
      ghost var done := IRBlock(c);
      AddRecurrenceBlock(net, c);
      AppendAssoc(h0, done, RecurrenceBlock(c));
      done := done + RecurrenceBlock(c);
      AddErrorBlock(net, c);
      AppendAssoc(h0, done, ErrorBlock(c));
      done := done + ErrorBlock(c);
      AddLateralBlock(net, c);
      AppendAssoc(h0, done, LateralBlock(c));
      done := done + LateralBlock(c);
      AddRecordBlock(net, c);
      AppendAssoc(h0, done, RecordBlock(c));
      done := done + RecordBlock(c);
      AddForcedSpikes(net, name, setSpikes);
      AppendAssoc(h0, done, ForcedSpikes(name, setSpikes));
      done := done + ForcedSpikes(name, setSpikes);
    }

    /**
     * `set_rates`: looks the IR population up by name. The periodic rate rule it then installs
     * is left to the simulator; the lookup is the only check made.
     */
    method SetRates(rateTable: string) returns (ok: bool)
      ensures ok <==> Named(Member(name, IR)) in net.entries
    {
      var ir := net.Get(Member(name, IR));
      ok := ir.Some?;
    }

    /**
     * `set_spikes`: looks the IR population up by name and hands it the schedule, which only a
     * spike generator accepts; any other object has no `set_spikes` and the call raises.
     */
    method SetSpikes(indices: seq<nat>, times: seq<int>) returns (ok: bool)
      ensures ok <==> AcceptsSchedule(Lookup(net.State(), Member(name, IR)))
    {
      var ir := net.Get(Member(name, IR));
      ok := ir.Some? && ir.value.Population? && ir.value.kind.Generator?;
    }

    /**
     * `record_variable(pop, name)`: a `vm` state monitor on `area_pop`, named `area_name_RECORD`.
     * The monitor cannot be built when `area_pop` is missing or has no `vm`; nothing is added then.
     */
    method RecordVariable(pop: string, recorder: string) returns (res: Outcome)
      requires net.Valid()
      modifies net
      ensures net.Valid()
      ensures res == RecordCheck(old(net.State()), name, pop)
      ensures res == Done ==>
                net.history == old(net.history) + [Recording(name, pop, recorder)]
                && net.State() == Register(old(net.State()), Recording(name, pop, recorder))
      ensures res != Done ==> net.history == old(net.history) && net.State() == old(net.State())
    {
      var target := net.Get(Member(name, pop));
      if target.None? {
        return Failed(Missing(Member(name, pop)));
      }
      if !HasVoltage(target.value) {
        return Failed(NoVoltage(Member(name, pop)));
      }
      net.Add(Recording(name, pop, recorder));
      res := Done;
    }

    /** `area[key]`: the recorder named `area_key_RECORD`. */
    method GetItem(key: string) returns (e: Option<Entry>)
      ensures e == Lookup(net.State(), RecorderName(name, key))
    {
      e := net.Get(RecorderName(name, key));
    }
  }

  // The constructor's body, block by block.

  lemma AppendAssoc<T>(a: seq<T>, b: seq<T>, c: seq<T>)
    ensures a + b + c == a + (b + c)
  {
  }

  /** IR: a Poisson group, a spike generator, or model neurons with interneurons and the kick. */
  method AddIRBlock(net: Net, c: Config)
    requires net.Valid()
    modifies net
    ensures net.Valid() && net.history == old(net.history) + IRBlock(c)
  {
    var ir := Member(c.name, IR);
    if c.irPoisson {
      net.Add(Pop(ir, PoissonRates, c.n));
    } else if c.irSet {
      net.Add(Pop(ir, Generator([]), c.n));
    } else {
      net.Add(Pop(ir, Neurons(Representation), c.n));
      net.Add(Pop(Member(c.name, InterIR), Neurons(Interneuron), c.n));
      if c.initRandom {
        net.Add(Pop(InitSG, Generator([(0, 0)]), 1));
        net.Add(Conn(InitSG, ir, ToTarget(2), Drive, None, "", false));
      }
    }
  }

  method AddRecurrenceBlock(net: Net, c: Config)
    requires net.Valid()
    modifies net
    ensures net.Valid() && net.history == old(net.history) + RecurrenceBlock(c)
  {
    var ir := Member(c.name, IR);
    if !(c.irPoisson || c.irSet) {
      net.Add(Conn(Member(c.name, InterIR), ir, OneToOne, c.wInhiIR, None, "", false));
      if !c.lateralPlasticity {
        net.Add(Conn(ir, ir, OneToOne, Drive, Some(RecurrentDelay), "", false));
      }
    }
  }

  method AddErrorBlock(net: Net, c: Config)
    requires net.Valid()
    modifies net
    ensures net.Valid() && net.history == old(net.history) + ErrorBlock(c)
  {
    AddErrorPopulations(net, c);
    AddErrorWiring(net, c);
    AddFeedback(net, c);
  }

  method AddErrorPopulations(net: Net, c: Config)
    requires net.Valid()
    modifies net
    ensures net.Valid() && net.history == old(net.history) + ErrorPopulations(c)
  {
    if !c.onlyIR {
      net.Add(Pop(Member(c.name, PPE), Neurons(Default), c.n));
      net.Add(Pop(Member(c.name, InterPPE), Neurons(Interneuron), c.n));
      net.Add(Pop(Member(c.name, NPE), Neurons(Default), c.n));
      net.Add(Pop(Member(c.name, InterNPE), Neurons(Interneuron), c.n));
    }
  }

  method AddErrorWiring(net: Net, c: Config)
    requires net.Valid()
    modifies net
    ensures net.Valid() && net.history == old(net.history) + ErrorWiring(c)
  {
    if !c.onlyIR {
      var ir := Member(c.name, IR);
      var ppe, ippe := Member(c.name, PPE), Member(c.name, InterPPE);
      var npe, inpe := Member(c.name, NPE), Member(c.name, InterNPE);
      net.Add(Conn(ippe, ppe, OneToOne, c.wInhiPE, None, "", false));
      net.Add(Conn(inpe, npe, OneToOne, c.wInhiPE, None, "", false));
      net.Add(Conn(ir, ippe, OneToOne, Drive, Some(ErrorDelay), "", false));
      net.Add(Conn(ir, npe, OneToOne, c.wExciPE, Some(ErrorDelay), "", false));
    }
  }

  method AddFeedback(net: Net, c: Config)
    requires net.Valid()
    modifies net
    ensures net.Valid() && net.history == old(net.history) + Feedback(c)
  {
    if !c.onlyIR && !(c.irPoisson || c.irSet) {
      net.Add(Conn(Member(c.name, PPE), Member(c.name, IR), OneToOne, c.wExciIR, None, "", false));
      net.Add(Conn(Member(c.name, NPE), Member(c.name, InterIR), OneToOne, Drive, None, "", false));
    }
  }

  method AddLateralBlock(net: Net, c: Config)
    requires net.Valid()
    modifies net
    ensures net.Valid() && net.history == old(net.history) + LateralBlock(c)
  {
    if c.lateralPlasticity {
      var ir := Member(c.name, IR);
      net.Add(Conn(ir, ir, AllButSelf, 1, Some(LateralDelay), "P", true));
    }
  }

  method AddRecordBlock(net: Net, c: Config)
    requires net.Valid()
    modifies net
    ensures net.Valid() && net.history == old(net.history) + RecordBlock(c)
  {
    if c.recordSpikes {
      net.Add(Mon(RecorderName(c.name, IR), Member(c.name, IR), SpikeTimes));
      if !c.onlyIR {
        net.Add(Mon(RecorderName(c.name, PPE), Member(c.name, PPE), SpikeTimes));
        net.Add(Mon(RecorderName(c.name, NPE), Member(c.name, NPE), SpikeTimes));
      }
    }
  }

  /** The loop over `SetSpikes`: a generator named `INITSG` and its connection per entry. */
  method AddForcedSpikes(net: Net, area: string, setSpikes: seq<(nat, int)>)
    requires net.Valid()
    modifies net
    ensures net.Valid() && net.history == old(net.history) + ForcedSpikes(area, setSpikes)
  {
    var ir := Member(area, IR);
    for k := 0 to |setSpikes|
      invariant net.Valid()
      invariant net.history == old(net.history) + ForcedSpikes(area, setSpikes[..k])
    {
      var (index, time) := setSpikes[k];
      net.Add(Pop(InitSG, Generator([(0, time)]), 1));
      net.Add(Conn(InitSG, ir, Pairs([0], [index]), Drive, None, "", false));
      assert setSpikes[..k + 1][..k] == setSpikes[..k];
    }
    assert setSpikes[..|setSpikes|] == setSpikes;
  }

  // ---------------------------------------------------------------------------------------
  // connect

  /** `W.shape == (rows, cols)`. */
  predicate HasShape(w: seq<seq<int>>, rows: nat, cols: nat)
  {
    |w| == rows && forall i :: 0 <= i < |w| ==> |w[i]| == cols
  }

  /** The nonzero entries of one matrix row `i`, whose first column is `j`, left to right. */
  function RowPairs(row: seq<int>, i: nat, j: nat): seq<(nat, nat)>
    decreases |row|
  {
    if row == [] then []
    else (if row[0] != 0 then [(i, j)] else []) + RowPairs(row[1..], i, j + 1)
  }

  /** The nonzero entries of rows `i`, `i + 1`, ... in row-major order. */
  function MatrixPairs(w: seq<seq<int>>, i: nat): seq<(nat, nat)>
    decreases |w|
  {
    if w == [] then [] else RowPairs(w[0], i, 0) + MatrixPairs(w[1..], i + 1)
  }

  /** `W.nonzero()`: the row indices and the column indices of the nonzero entries. */
  function NonZero(w: seq<seq<int>>): (seq<nat>, seq<nat>)
  {
    var ps := MatrixPairs(w, 0);
    (seq(|ps|, k requires 0 <= k < |ps| => ps[k].0), seq(|ps|, k requires 0 <= k < |ps| => ps[k].1))
  }

  /** One `synapses(net[src], net[dst], pattern, weight, net)` call of `connect`. */
  datatype Step = Step(src: string, dst: string, pattern: Pattern, weight: int)

  /** The connection a step registers: no delay and no suffix. */
  function Wiring(s: Step): Registration
  {
    Conn(s.src, s.dst, s.pattern, s.weight, None, "", false)
  }

  /** The names of the populations and recorders in a registry. */
  function NamesOf(r: Registry): set<string>
  {
    set k | k in r.entries && k.Named? :: k.name
  }

  /**
   * Runs the steps in order: each looks up its source and then its target, stops the run with
   * the first name that is missing, and otherwise registers the connection.
   */
  function RunSteps(names: set<string>, steps: seq<Step>): (seq<Registration>, Outcome)
  {
    if steps == [] then ([], Done)
    else
      var s := steps[0];
      if s.src !in names then ([], Failed(Missing(s.src)))
      else if s.dst !in names then ([], Failed(Missing(s.dst)))
      else
        var rest := RunSteps(names, steps[1..]);
        ([Wiring(s)] + rest.0, rest.1)
  }

  /** `rest`, preceded by `s` when `b` holds. */
  function Then(b: bool, s: Step, rest: seq<Step>): seq<Step>
  {
    if b then [s] + rest else rest
  }

  /** The prediction from IR of area 1: to PPE unless only NPE, to the NPE interneurons unless only PPE. */
  function ForwardSteps(a1: AreaRef, a2: AreaRef, sources: seq<nat>, targets: seq<nat>,
                        wExciPE: int, onlyNPE: bool, onlyPPE: bool): seq<Step>
  {
    var ir1 := Member(a1.name, IR);
    Then(!onlyNPE, Step(ir1, Member(a2.name, PPE), Pairs(sources, targets), wExciPE),
    Then(!onlyPPE, Step(ir1, Member(a2.name, InterNPE), Pairs(sources, targets), Drive), []))
  }

  /** The error feedback into area 1, with the index lists swapped; none onto a Poisson input. */
  function BackwardSteps(a1: AreaRef, a2: AreaRef, sources: seq<nat>, targets: seq<nat>,
                         wExciIR: int, onlyNPE: bool, onlyPPE: bool): seq<Step>
  {
    if a1.irPoisson then []
    else
      Then(!onlyNPE, Step(Member(a2.name, PPE), Member(a1.name, InterIR), Pairs(targets, sources), Drive),
      Then(!onlyPPE, Step(Member(a2.name, NPE), Member(a1.name, IR), Pairs(targets, sources), wExciIR), []))
  }

  function ConnectSteps(a1: AreaRef, a2: AreaRef, sources: seq<nat>, targets: seq<nat>,
                        wExciPE: int, wExciIR: int, onlyNPE: bool, onlyPPE: bool): seq<Step>
  {
    ForwardSteps(a1, a2, sources, targets, wExciPE, onlyNPE, onlyPPE)
    + BackwardSteps(a1, a2, sources, targets, wExciIR, onlyNPE, onlyPPE)
  }

  /** The registrations `connect` makes, and how it ends. */
  function ConnectPlan(r: Registry, a1: AreaRef, a2: AreaRef, sameNet: bool, w: seq<seq<int>>,
                       wExciPE: int, wExciIR: int, onlyNPE: bool, onlyPPE: bool): (seq<Registration>, Outcome)
  {
    if !sameNet then ([], Failed(NetMismatch))
    else if !HasShape(w, a1.n, a2.n) then ([], Failed(ShapeMismatch))
    else
      var (sources, targets) := NonZero(w);
      RunSteps(NamesOf(r), ConnectSteps(a1, a2, sources, targets, wExciPE, wExciIR, onlyNPE, onlyPPE))
  }

  lemma WireKeepsNames(r: Registry, reg: Registration)
    requires reg.key.Wire?
    ensures NamesOf(Register(r, reg)) == NamesOf(r)
  {
    var r' := Register(r, reg);
    forall x | x in NamesOf(r') ensures x in NamesOf(r) {
      assert Named(x) in r'.entries;
    }
    forall x | x in NamesOf(r) ensures x in NamesOf(r') {
      assert Named(x) in r.entries;
    }
  }

  /** One step of `connect`: two name lookups and, when both succeed, one registration. */
  method WireByName(net: Net, step: Step) returns (res: Outcome)
    requires net.Valid()
    modifies net
    ensures net.Valid()
    ensures NamesOf(net.State()) == NamesOf(old(net.State()))
    ensures net.history == old(net.history) + RunSteps(NamesOf(old(net.State())), [step]).0
    ensures res == RunSteps(NamesOf(old(net.State())), [step]).1
  {
    var src := net.Get(step.src);
    if src.None? {
      assert step.src !in NamesOf(net.State());
      return Failed(Missing(step.src));
    }
    assert step.src in NamesOf(net.State());
    var dst := net.Get(step.dst);
    if dst.None? {
      assert step.dst !in NamesOf(net.State());
      return Failed(Missing(step.dst));
    }
    assert step.dst in NamesOf(net.State());
    var reg := Wiring(step);
    WireKeepsNames(net.State(), reg);
    net.Add(reg);
    res := Done;
  }

  lemma {:induction false} RunStepsConcat(names: set<string>, a: seq<Step>, b: seq<Step>)
    ensures RunSteps(names, a + b) ==
              if RunSteps(names, a).1.Failed? then RunSteps(names, a)
              else (RunSteps(names, a).0 + RunSteps(names, b).0, RunSteps(names, b).1)
    decreases |a|
  {
    if a == [] {
      assert a + b == b;
      assert [] + RunSteps(names, b).0 == RunSteps(names, b).0;
    } else {
      assert (a + b)[0] == a[0] && (a + b)[1..] == a[1..] + b;
      RunStepsConcat(names, a[1..], b);
      var s := a[0];
      if s.src in names && s.dst in names && RunSteps(names, a[1..]).1.Done? {
        var reg := Wiring(s);
        AppendAssoc([reg], RunSteps(names, a[1..]).0, RunSteps(names, b).0);
      }
    }
  }

  /** Two optional steps of `connect`, in order; the second is not attempted if the first fails. */
  method WirePair(net: Net, first: bool, s1: Step, second: bool, s2: Step) returns (res: Outcome)
    requires net.Valid()
    modifies net
    ensures net.Valid()
    ensures NamesOf(net.State()) == NamesOf(old(net.State()))
    ensures net.history == old(net.history) + RunSteps(NamesOf(old(net.State())), Then(first, s1, Then(second, s2, []))).0
    ensures res == RunSteps(NamesOf(old(net.State())), Then(first, s1, Then(second, s2, []))).1
  {
    ghost var names := NamesOf(net.State());
    ghost var tail := Then(second, s2, []);
    res := Done;
    if first {
      res := WireByName(net, s1);
      RunStepsConcat(names, [s1], tail);
      if res.Failed? {
        return;
      }
    }
    if second {
      res := WireByName(net, s2);
    }
    assert tail == [] || tail == [s2];
  }

  /** `connect(a1, a2, W, wEXCIPE, wEXCIIR, onlyNPE=..., onlyPPE=...)`. */
  method Connect(a1: Area, a2: Area, w: seq<seq<int>>, wExciPE: int, wExciIR: int,
                 onlyNPE: bool, onlyPPE: bool) returns (res: Outcome)
    requires a1.net.Valid()
    modifies a1.net
    ensures a1.net.Valid()
    ensures a1.net.history == old(a1.net.history)
              + ConnectPlan(old(a1.net.State()), a1.Ref(), a2.Ref(), a1.net == a2.net, w,
                            wExciPE, wExciIR, onlyNPE, onlyPPE).0
    ensures res == ConnectPlan(old(a1.net.State()), a1.Ref(), a2.Ref(), a1.net == a2.net, w,
                               wExciPE, wExciIR, onlyNPE, onlyPPE).1
  {
    if a1.net != a2.net {
      return Failed(NetMismatch);
    }
    if !HasShape(w, a1.n, a2.n) {
      return Failed(ShapeMismatch);
    }
    var net := a1.net;
    var (sources, targets) := NonZero(w);
    var ir1 := Member(a1.name, IR);
    ghost var names := NamesOf(net.State());
    ghost var fwd := ForwardSteps(a1.Ref(), a2.Ref(), sources, targets, wExciPE, onlyNPE, onlyPPE);
    ghost var bwd := BackwardSteps(a1.Ref(), a2.Ref(), sources, targets, wExciIR, onlyNPE, onlyPPE);
    RunStepsConcat(names, fwd, bwd);
    res := WirePair(net, !onlyNPE, Step(ir1, Member(a2.name, PPE), Pairs(sources, targets), wExciPE),
                         !onlyPPE, Step(ir1, Member(a2.name, InterNPE), Pairs(sources, targets), Drive));
    if res.Failed? {
      return;
    }
    if !a1.irPoisson {
      res := WirePair(net, !onlyNPE, Step(Member(a2.name, PPE), Member(a1.name, InterIR), Pairs(targets, sources), Drive),
                           !onlyPPE, Step(Member(a2.name, NPE), ir1, Pairs(targets, sources), wExciIR));
    } else {
      assert bwd == [];
    }
  }

  // ---------------------------------------------------------------------------------------
  // What the constructor registers

  /** Names of one area with different roles are different. */
  lemma MemberInjective(area: string, r1: string, r2: string)
    ensures Member(area, r1) == Member(area, r2) ==> r1 == r2
  {
    if Member(area, r1) == Member(area, r2) {
      assert r1 == Member(area, r1)[|area| + 1..];
    }
  }

  /** No area member is called `INITSG`, which has no underscore. */
  lemma MemberNotInitSG(area: string, role: string)
    ensures Member(area, role) != InitSG
  {
    if |Member(area, role)| == |InitSG| {
      assert Member(area, role)[|area|] == '_';
    }
  }

  /** `x` is one of the registrations the forced-spike loop makes for some entry of `spikes`. */
  predicate ForcedBy(area: string, spikes: seq<(nat, int)>, x: Registration)
  {
    exists i :: 0 <= i < |spikes| &&
      (x == Pop(InitSG, Generator([(0, spikes[i].1)]), 1)
       || x == Conn(InitSG, Member(area, IR), Pairs([0], [spikes[i].0]), Drive, None, "", false))
  }

  /**
   * Which registrations the constructor makes, ignoring their order and repetitions: the
   * reference the properties below are read from.
   */
  predicate Planned(c: Config, x: Registration)
  {
    var a := c.name;
    var ir, iir := Member(a, IR), Member(a, InterIR);
    var ppe, ippe, npe, inpe := Member(a, PPE), Member(a, InterPPE), Member(a, NPE), Member(a, InterNPE);
    || x == Pop(ir, IRKind(c), c.n)
    || (ModelIR(c) && x == Pop(iir, Neurons(Interneuron), c.n))
    || (ModelIR(c) && c.initRandom
        && (x == Pop(InitSG, Generator([(0, 0)]), 1) || x == Conn(InitSG, ir, ToTarget(2), Drive, None, "", false)))
    || (ModelIR(c) && x == Conn(iir, ir, OneToOne, c.wInhiIR, None, "", false))
    || (ModelIR(c) && !c.lateralPlasticity && x == Conn(ir, ir, OneToOne, Drive, Some(RecurrentDelay), "", false))
    || (!c.onlyIR
        && (x == Pop(ppe, Neurons(Default), c.n) || x == Pop(ippe, Neurons(Interneuron), c.n)
            || x == Pop(npe, Neurons(Default), c.n) || x == Pop(inpe, Neurons(Interneuron), c.n)))
    || (!c.onlyIR
        && (x == Conn(ippe, ppe, OneToOne, c.wInhiPE, None, "", false)
            || x == Conn(inpe, npe, OneToOne, c.wInhiPE, None, "", false)
            || x == Conn(ir, ippe, OneToOne, Drive, Some(ErrorDelay), "", false)
            || x == Conn(ir, npe, OneToOne, c.wExciPE, Some(ErrorDelay), "", false)))
    || (!c.onlyIR && ModelIR(c)
        && (x == Conn(ppe, ir, OneToOne, c.wExciIR, None, "", false)
            || x == Conn(npe, iir, OneToOne, Drive, None, "", false)))
    || (c.lateralPlasticity && x == Conn(ir, ir, AllButSelf, 1, Some(LateralDelay), "P", true))
    || (c.recordSpikes && x == Mon(RecorderName(a, IR), ir, SpikeTimes))
    || (c.recordSpikes && !c.onlyIR
        && (x == Mon(RecorderName(a, PPE), ppe, SpikeTimes) || x == Mon(RecorderName(a, NPE), npe, SpikeTimes)))
    || ForcedBy(a, c.setSpikes, x)
  }

  lemma {:induction false} ForcedSpikesMembers(area: string, spikes: seq<(nat, int)>)
    ensures forall x :: x in ForcedSpikes(area, spikes) <==> ForcedBy(area, spikes, x)
    decreases |spikes|
  {
    if spikes != [] {
      var init, last := spikes[..|spikes| - 1], spikes[|spikes| - 1];
      ForcedSpikesMembers(area, init);
      forall x ensures x in ForcedSpikes(area, spikes) <==> ForcedBy(area, spikes, x) {
        if ForcedBy(area, init, x) {
          var i :| 0 <= i < |init| &&
            (x == Pop(InitSG, Generator([(0, init[i].1)]), 1)
             || x == Conn(InitSG, Member(area, IR), Pairs([0], [init[i].0]), Drive, None, "", false));
          assert spikes[i] == init[i];
        }
        if ForcedBy(area, spikes, x) {
          var i :| 0 <= i < |spikes| &&
            (x == Pop(InitSG, Generator([(0, spikes[i].1)]), 1)
             || x == Conn(InitSG, Member(area, IR), Pairs([0], [spikes[i].0]), Drive, None, "", false));
          if i < |init| {
            assert init[i] == spikes[i];
          }
        }
      }
    }
  }

  lemma IRBlockMembers(c: Config)
    ensures forall x :: x in IRBlock(c) <==>
      x == Pop(Member(c.name, IR), IRKind(c), c.n)
      || (ModelIR(c) && x == Pop(Member(c.name, InterIR), Neurons(Interneuron), c.n))
      || (ModelIR(c) && c.initRandom
          && (x == Pop(InitSG, Generator([(0, 0)]), 1)
              || x == Conn(InitSG, Member(c.name, IR), ToTarget(2), Drive, None, "", false)))
  {
  }

  lemma RecurrenceBlockMembers(c: Config)
    ensures forall x :: x in RecurrenceBlock(c) <==>
      (ModelIR(c) && x == Conn(Member(c.name, InterIR), Member(c.name, IR), OneToOne, c.wInhiIR, None, "", false))
      || (ModelIR(c) && !c.lateralPlasticity
          && x == Conn(Member(c.name, IR), Member(c.name, IR), OneToOne, Drive, Some(RecurrentDelay), "", false))
  {
  }

  lemma ErrorPopulationsMembers(c: Config)
    ensures forall x :: x in ErrorPopulations(c) <==>
      !c.onlyIR
      && (x == Pop(Member(c.name, PPE), Neurons(Default), c.n) || x == Pop(Member(c.name, InterPPE), Neurons(Interneuron), c.n)
          || x == Pop(Member(c.name, NPE), Neurons(Default), c.n) || x == Pop(Member(c.name, InterNPE), Neurons(Interneuron), c.n))
  {
  }

  lemma ErrorWiringMembers(c: Config)
    ensures forall x :: x in ErrorWiring(c) <==>
      !c.onlyIR
      && (x == Conn(Member(c.name, InterPPE), Member(c.name, PPE), OneToOne, c.wInhiPE, None, "", false)
          || x == Conn(Member(c.name, InterNPE), Member(c.name, NPE), OneToOne, c.wInhiPE, None, "", false)
          || x == Conn(Member(c.name, IR), Member(c.name, InterPPE), OneToOne, Drive, Some(ErrorDelay), "", false)
          || x == Conn(Member(c.name, IR), Member(c.name, NPE), OneToOne, c.wExciPE, Some(ErrorDelay), "", false))
  {
  }

  lemma FeedbackMembers(c: Config)
    ensures forall x :: x in Feedback(c) <==>
      !c.onlyIR && ModelIR(c)
      && (x == Conn(Member(c.name, PPE), Member(c.name, IR), OneToOne, c.wExciIR, None, "", false)
          || x == Conn(Member(c.name, NPE), Member(c.name, InterIR), OneToOne, Drive, None, "", false))
  {
  }

  lemma RecordBlockMembers(c: Config)
    ensures forall x :: x in RecordBlock(c) <==>
      (c.recordSpikes && x == Mon(RecorderName(c.name, IR), Member(c.name, IR), SpikeTimes))
      || (c.recordSpikes && !c.onlyIR
          && (x == Mon(RecorderName(c.name, PPE), Member(c.name, PPE), SpikeTimes)
              || x == Mon(RecorderName(c.name, NPE), Member(c.name, NPE), SpikeTimes)))
  {
  }

  /** Membership in a concatenation of eight blocks, shaped as `Plan`. */
  lemma InBlocks(x: Registration, b1: seq<Registration>, b2: seq<Registration>, b3: seq<Registration>,
                 b4: seq<Registration>, b5: seq<Registration>, b6: seq<Registration>, b7: seq<Registration>,
                 b8: seq<Registration>)
    ensures x in b1 + b2 + (b3 + b4 + b5) + b6 + b7 + b8 <==>
              x in b1 || x in b2 || x in b3 || x in b4 || x in b5 || x in b6 || x in b7 || x in b8
  {
  }

  /** The constructor makes exactly the planned registrations. */
  lemma PlanMembership(c: Config)
    ensures forall x :: x in Plan(c) <==> Planned(c, x)
  {
    IRBlockMembers(c);
    RecurrenceBlockMembers(c);
    ErrorPopulationsMembers(c);
    ErrorWiringMembers(c);
    FeedbackMembers(c);
    RecordBlockMembers(c);
    ForcedSpikesMembers(c.name, c.setSpikes);
    forall x ensures x in Plan(c) <==> Planned(c, x) {
      InBlocks(x, IRBlock(c), RecurrenceBlock(c), ErrorPopulations(c), ErrorWiring(c), Feedback(c),
               LateralBlock(c), RecordBlock(c), ForcedSpikes(c.name, c.setSpikes));
    }
  }

  /** IR kind, and the IR interneurons exactly when IR is made of model neurons. */
  lemma InterIROnlyForModelIR(c: Config)
    ensures Pop(Member(c.name, IR), IRKind(c), c.n) in Plan(c)
    ensures Pop(Member(c.name, InterIR), Neurons(Interneuron), c.n) in Plan(c) <==> ModelIR(c)
  {
    PlanMembership(c);
  }

  /** With model-neuron IR, the interneurons inhibit IR one to one with `wINHIIR`. */
  lemma LocalInhibitionOfIR(c: Config)
    ensures Conn(Member(c.name, InterIR), Member(c.name, IR), OneToOne, c.wInhiIR, None, "", false) in Plan(c)
            <==> ModelIR(c)
  {
    PlanMembership(c);
  }

  /** IR excites itself one to one with weight 35 after 20 ms exactly when lateral plasticity is off. */
  lemma DelayedSelfExcitation(c: Config)
    ensures Conn(Member(c.name, IR), Member(c.name, IR), OneToOne, Drive, Some(RecurrentDelay), "", false) in Plan(c)
            <==> ModelIR(c) && !c.lateralPlasticity
  {
    PlanMembership(c);
  }

  /** The plastic all-but-self 'P' recurrence with a 19.9 ms delay is there exactly with lateral plasticity. */
  lemma PlasticRecurrence(c: Config)
    ensures Conn(Member(c.name, IR), Member(c.name, IR), AllButSelf, 1, Some(LateralDelay), "P", true) in Plan(c)
            <==> c.lateralPlasticity
  {
    PlanMembership(c);
  }

  /** The prediction-error populations and their interneurons. */
  predicate ErrorRole(role: string, behavior: Behavior)
  {
    || ((role == PPE || role == NPE) && behavior == Default)
    || ((role == InterPPE || role == InterNPE) && behavior == Interneuron)
  }

  /** Each of the four prediction-error populations exists exactly unless `onlyIR`. */
  lemma ErrorPopulationsUnlessOnlyIR(c: Config, role: string, behavior: Behavior)
    requires ErrorRole(role, behavior)
    ensures Pop(Member(c.name, role), Neurons(behavior), c.n) in Plan(c) <==> !c.onlyIR
  {
    PlanMembership(c);
  }

  /**
   * Unless `onlyIR`: the interneurons inhibit PPE and NPE one to one with `wINHIPE`, and IR
   * drives the PPE interneurons with 35 and NPE with `wEXCIPE`, both after 0.1 ms.
   */
  lemma ErrorWiringUnlessOnlyIR(c: Config)
    ensures Conn(Member(c.name, InterPPE), Member(c.name, PPE), OneToOne, c.wInhiPE, None, "", false) in Plan(c)
            <==> !c.onlyIR
    ensures Conn(Member(c.name, InterNPE), Member(c.name, NPE), OneToOne, c.wInhiPE, None, "", false) in Plan(c)
            <==> !c.onlyIR
  {
    PlanMembership(c);
  }

  lemma ErrorDriveUnlessOnlyIR(c: Config)
    ensures Conn(Member(c.name, IR), Member(c.name, InterPPE), OneToOne, Drive, Some(ErrorDelay), "", false) in Plan(c)
            <==> !c.onlyIR
    ensures Conn(Member(c.name, IR), Member(c.name, NPE), OneToOne, c.wExciPE, Some(ErrorDelay), "", false) in Plan(c)
            <==> !c.onlyIR
  {
    PlanMembership(c);
  }

  /** Error feedback PPE to IR (`wEXCIIR`) and NPE to the IR interneurons (35) needs model-neuron IR. */
  lemma FeedbackOnlyOntoModelIR(c: Config)
    ensures Conn(Member(c.name, PPE), Member(c.name, IR), OneToOne, c.wExciIR, None, "", false) in Plan(c)
            <==> !c.onlyIR && ModelIR(c)
    ensures Conn(Member(c.name, NPE), Member(c.name, InterIR), OneToOne, Drive, None, "", false) in Plan(c)
            <==> !c.onlyIR && ModelIR(c)
  {
    PlanMembership(c);
  }

  /** `recordspikes` always records IR's spikes. */
  lemma IRSpikeRecorder(c: Config)
    ensures Mon(RecorderName(c.name, IR), Member(c.name, IR), SpikeTimes) in Plan(c) <==> c.recordSpikes
  {
    PlanMembership(c);
  }

  /** `recordspikes` records the spikes of PPE and of NPE unless `onlyIR`. */
  lemma ErrorSpikeRecorders(c: Config, role: string)
    requires role == PPE || role == NPE
    ensures Mon(RecorderName(c.name, role), Member(c.name, role), SpikeTimes) in Plan(c) <==> c.recordSpikes && !c.onlyIR
  {
    PlanMembership(c);
  }

  /** Every key the constructor registers is a member of the area or the shared generator. */
  lemma PlanNaming(c: Config)
    ensures forall x :: x in Plan(c) ==> WithinArea(c.name, x.key)
  {
    PlanMembership(c);
  }

  /** IR is the constructor's first registration, so a fresh IR name gets the kind the flags choose. */
  lemma IRKindInPriorityOrder(c: Config, r: Registry)
    requires Named(Member(c.name, IR)) !in r.entries
    ensures Lookup(AddAll(r, Plan(c)), Member(c.name, IR)) == Some(Population(IRKind(c), c.n))
  {
    assert Plan(c)[0] == Pop(Member(c.name, IR), IRKind(c), c.n);
    FirstRegistrationWins(r, Plan(c));
  }

  /**
   * After construction, `record_variable('IR', …)` succeeds exactly for model-neuron IR: a
   * Poisson group or a spike generator has no `vm`.
   */
  lemma RecordIRAfterConstruction(c: Config, r: Registry)
    requires Named(Member(c.name, IR)) !in r.entries
    ensures RecordCheck(AddAll(r, Plan(c)), c.name, IR) == Done <==> ModelIR(c)
    ensures !ModelIR(c) ==> RecordCheck(AddAll(r, Plan(c)), c.name, IR) == Failed(NoVoltage(Member(c.name, IR)))
  {
    IRKindInPriorityOrder(c, r);
  }

  /** After construction, `set_spikes` is accepted exactly when IR is a spike set. */
  lemma SetSpikesAfterConstruction(c: Config, r: Registry)
    requires Named(Member(c.name, IR)) !in r.entries
    ensures AcceptsSchedule(Lookup(AddAll(r, Plan(c)), Member(c.name, IR))) <==> !c.irPoisson && c.irSet
  {
    IRKindInPriorityOrder(c, r);
  }

  /** The IR interneurons' name differs from every other name an area registers. */
  lemma InterIRNameApart(area: string)
    ensures Member(area, InterIR) !in
              {Member(area, IR), Member(area, PPE), Member(area, InterPPE), Member(area, NPE), Member(area, InterNPE),
               RecorderName(area, IR), RecorderName(area, PPE), RecorderName(area, NPE), InitSG}
  {
    MemberInjective(area, InterIR, IR);
    MemberInjective(area, InterIR, PPE);
    MemberInjective(area, InterIR, InterPPE);
    MemberInjective(area, InterIR, NPE);
    MemberInjective(area, InterIR, InterNPE);
    MemberInjective(area, InterIR, IR + "_RECORD");
    MemberInjective(area, InterIR, PPE + "_RECORD");
    MemberInjective(area, InterIR, NPE + "_RECORD");
    MemberNotInitSG(area, InterIR);
  }

  /** The IR recorder's name differs from every other name an area registers. */
  lemma IRRecorderNameApart(area: string)
    ensures RecorderName(area, IR) !in
              {Member(area, IR), Member(area, InterIR), Member(area, PPE), Member(area, InterPPE), Member(area, NPE),
               Member(area, InterNPE), RecorderName(area, PPE), RecorderName(area, NPE), InitSG}
  {
    MemberInjective(area, IR + "_RECORD", IR);
    MemberInjective(area, IR + "_RECORD", InterIR);
    MemberInjective(area, IR + "_RECORD", PPE);
    MemberInjective(area, IR + "_RECORD", InterPPE);
    MemberInjective(area, IR + "_RECORD", NPE);
    MemberInjective(area, IR + "_RECORD", InterNPE);
    MemberInjective(area, IR + "_RECORD", PPE + "_RECORD");
    MemberInjective(area, IR + "_RECORD", NPE + "_RECORD");
    MemberNotInitSG(area, IR + "_RECORD");
  }

  /** After the constructor, a key is registered iff it was before or some planned registration uses it. */
  lemma AreaRegistrations(c: Config, r: Registry, k: Key)
    ensures k in AddAll(r, Plan(c)).entries <==> k in r.entries || exists x :: Planned(c, x) && x.key == k
  {
    AddAllEntries(r, Plan(c), k);
    PlanMembership(c);
  }

  /** The forced-spike loop creates one generator named `INITSG` per entry. */
  lemma {:induction false} ForcedSpikesGenerators(area: string, spikes: seq<(nat, int)>)
    ensures Occurrences(ForcedSpikes(area, spikes), Named(InitSG)) == |spikes|
    decreases |spikes|
  {
    if spikes != [] {
      var init, last := spikes[..|spikes| - 1], spikes[|spikes| - 1];
      ForcedSpikesGenerators(area, init);
      OccurrencesConcat(ForcedSpikes(area, init), ForcedSpike(area, last), Named(InitSG));
      MemberNotInitSG(area, IR);
      OccurrencesPair(ForcedSpike(area, last)[0], ForcedSpike(area, last)[1], Named(InitSG));
    }
  }

  lemma IRBlockGenerators(c: Config)
    ensures Occurrences(IRBlock(c), Named(InitSG)) == if ModelIR(c) && c.initRandom then 1 else 0
  {
    MemberNotInitSG(c.name, IR);
    MemberNotInitSG(c.name, InterIR);
    if ModelIR(c) && c.initRandom {
      var ir := Member(c.name, IR);
      var head := [Pop(ir, Neurons(Representation), c.n), Pop(Member(c.name, InterIR), Neurons(Interneuron), c.n)];
      var tail := [Pop(InitSG, Generator([(0, 0)]), 1), Conn(InitSG, ir, ToTarget(2), Drive, None, "", false)];
      assert IRBlock(c) == head + tail;
      OccurrencesConcat(head, tail, Named(InitSG));
      OccurrencesPair(head[0], head[1], Named(InitSG));
      OccurrencesPair(tail[0], tail[1], Named(InitSG));
    } else {
      OccurrencesAbsent(IRBlock(c), Named(InitSG));
    }
  }

  lemma OccurrencesBlocks(k: Key, b1: seq<Registration>, b2: seq<Registration>, b3: seq<Registration>,
                          b4: seq<Registration>, b5: seq<Registration>, b6: seq<Registration>,
                          b7: seq<Registration>, b8: seq<Registration>)
    ensures Occurrences(b1 + b2 + (b3 + b4 + b5) + b6 + b7 + b8, k) ==
              Occurrences(b1, k) + Occurrences(b2, k) + Occurrences(b3, k) + Occurrences(b4, k)
              + Occurrences(b5, k) + Occurrences(b6, k) + Occurrences(b7, k) + Occurrences(b8, k)
  {
    OccurrencesConcat(b1, b2, k);
    OccurrencesConcat(b3, b4, k);
    OccurrencesConcat(b3 + b4, b5, k);
    OccurrencesConcat(b1 + b2, b3 + b4 + b5, k);
    OccurrencesConcat(b1 + b2 + (b3 + b4 + b5), b6, k);
    OccurrencesConcat(b1 + b2 + (b3 + b4 + b5) + b6, b7, k);
    OccurrencesConcat(b1 + b2 + (b3 + b4 + b5) + b6 + b7, b8, k);
  }

  /** The wiring blocks register connections only, so no generator. */
  lemma NoGeneratorsInWiring(c: Config)
    ensures Occurrences(RecurrenceBlock(c), Named(InitSG)) == 0
    ensures Occurrences(ErrorWiring(c), Named(InitSG)) == 0
    ensures Occurrences(Feedback(c), Named(InitSG)) == 0
    ensures Occurrences(LateralBlock(c), Named(InitSG)) == 0
  {
    var g := Named(InitSG);
    OccurrencesAbsent(RecurrenceBlock(c), g);
    OccurrencesAbsent(ErrorWiring(c), g);
    OccurrencesAbsent(Feedback(c), g);
    OccurrencesAbsent(LateralBlock(c), g);
  }

  /** The error populations and the recorders all carry the area's prefix, so none is `INITSG`. */
  lemma NoGeneratorsAmongMembers(c: Config)
    ensures Occurrences(ErrorPopulations(c), Named(InitSG)) == 0
    ensures Occurrences(RecordBlock(c), Named(InitSG)) == 0
  {
    var a, g := c.name, Named(InitSG);
    MemberNotInitSG(a, PPE); MemberNotInitSG(a, InterPPE); MemberNotInitSG(a, NPE); MemberNotInitSG(a, InterNPE);
    OccurrencesAbsent(ErrorPopulations(c), g);
    MemberNotInitSG(a, IR + "_RECORD"); MemberNotInitSG(a, PPE + "_RECORD"); MemberNotInitSG(a, NPE + "_RECORD");
    OccurrencesAbsent(RecordBlock(c), g);
  }

  /** The constructor creates a generator named `INITSG` once per forced spike. */
  lemma PlanGenerators(c: Config)
    ensures Occurrences(Plan(c), Named(InitSG)) == ForcedGenerators(c)
  {
    OccurrencesBlocks(Named(InitSG), IRBlock(c), RecurrenceBlock(c), ErrorPopulations(c), ErrorWiring(c),
                      Feedback(c), LateralBlock(c), RecordBlock(c), ForcedSpikes(c.name, c.setSpikes));
    IRBlockGenerators(c);
    NoGeneratorsInWiring(c);
    NoGeneratorsAmongMembers(c);
    ForcedSpikesGenerators(c.name, c.setSpikes);
  }

  /**
   * Every forced-spike generator is named `INITSG`, so a second one (two spike entries, or the
   * random kick and one entry) is a name clash.
   */
  lemma ForcedGeneratorsClash(c: Config, r: Registry)
    requires Named(InitSG) !in r.entries && Named(InitSG) !in r.clashes
    ensures Named(InitSG) in AddAll(r, Plan(c)).clashes <==> ForcedGenerators(c) >= 2
  {
    AddAllClashes(r, Plan(c), Named(InitSG));
    PlanGenerators(c);
  }

  // ---------------------------------------------------------------------------------------
  // What `connect` registers

  /** Row-major order: `p` comes strictly before `q`. */
  predicate RowMajorBefore(p: (nat, nat), q: (nat, nat))
  {
    p.0 < q.0 || (p.0 == q.0 && p.1 < q.1)
  }

  lemma {:induction false} RowPairsExact(row: seq<int>, i: nat, j: nat)
    ensures forall p :: p in RowPairs(row, i, j) <==> p.0 == i && j <= p.1 < j + |row| && row[p.1 - j] != 0
    ensures forall a, b :: 0 <= a < b < |RowPairs(row, i, j)| ==> RowPairs(row, i, j)[a].1 < RowPairs(row, i, j)[b].1
    decreases |row|
  {
    if row != [] {
      RowPairsExact(row[1..], i, j + 1);
      var ps := RowPairs(row, i, j);
      forall p ensures p in ps <==> p.0 == i && j <= p.1 < j + |row| && row[p.1 - j] != 0 {
        if p.0 == i && j + 1 <= p.1 < j + |row| {
          assert row[1..][p.1 - (j + 1)] == row[p.1 - j];
        }
      }
    }
  }

  lemma {:induction false} MatrixPairsExact(w: seq<seq<int>>, i: nat)
    ensures forall p :: p in MatrixPairs(w, i) <==>
              i <= p.0 < i + |w| && p.1 < |w[p.0 - i]| && w[p.0 - i][p.1] != 0
    ensures forall a, b :: 0 <= a < b < |MatrixPairs(w, i)| ==>
              RowMajorBefore(MatrixPairs(w, i)[a], MatrixPairs(w, i)[b])
    ensures forall p :: p in MatrixPairs(w, i) ==> i <= p.0
    decreases |w|
  {
    if w != [] {
      MatrixPairsExact(w[1..], i + 1);
      RowPairsExact(w[0], i, 0);
      var head, tail := RowPairs(w[0], i, 0), MatrixPairs(w[1..], i + 1);
      var ps := MatrixPairs(w, i);
      assert ps == head + tail;
      forall p: (nat, nat) ensures p in ps <==> (i <= p.0 < i + |w| && p.1 < |w[p.0 - i]| && w[p.0 - i][p.1] != 0) {
        if i + 1 <= p.0 < i + |w| {
          assert w[1..][p.0 - (i + 1)] == w[p.0 - i];
        }
      }
      forall a, b | 0 <= a < b < |ps| ensures RowMajorBefore(ps[a], ps[b]) {
        if b < |head| {
          assert ps[a] == head[a] && ps[b] == head[b];
        } else if a < |head| {
          assert ps[a] == head[a] && head[a] in head;
          assert ps[b] == tail[b - |head|] && tail[b - |head|] in tail;
        } else {
          assert ps[a] == tail[a - |head|] && ps[b] == tail[b - |head|];
        }
      }
    }
  }

  /**
   * `W.nonzero()`: two aligned index lists holding, in row-major order and once each, exactly
   * the (row, column) pairs of the nonzero entries of `W`.
   */
  lemma NonZeroExact(w: seq<seq<int>>)
    ensures |NonZero(w).0| == |NonZero(w).1|
    ensures forall r, col :: (exists k :: 0 <= k < |NonZero(w).0| && NonZero(w).0[k] == r && NonZero(w).1[k] == col)
              <==> 0 <= r < |w| && 0 <= col < |w[r]| && w[r][col] != 0
    ensures forall a, b :: 0 <= a < b < |NonZero(w).0| ==>
              NonZero(w).0[a] < NonZero(w).0[b] || (NonZero(w).0[a] == NonZero(w).0[b] && NonZero(w).1[a] < NonZero(w).1[b])
  {
    MatrixPairsExact(w, 0);
    var ps := MatrixPairs(w, 0);
    var (s, t) := NonZero(w);
    forall r, col ensures (exists k :: 0 <= k < |s| && s[k] == r && t[k] == col)
                          <==> 0 <= r < |w| && 0 <= col < |w[r]| && w[r][col] != 0 {
      if exists k :: 0 <= k < |s| && s[k] == r && t[k] == col {
        var k :| 0 <= k < |s| && s[k] == r && t[k] == col;
        assert ps[k] == (r, col) && ps[k] in ps;
      }
      if 0 <= r < |w| && 0 <= col < |w[r]| && w[r][col] != 0 {
        assert (r, col) in ps;
        var k :| 0 <= k < |ps| && ps[k] == (r, col);
        assert s[k] == r && t[k] == col;
      }
    }
    forall a, b | 0 <= a < b < |s|
      ensures s[a] < s[b] || (s[a] == s[b] && t[a] < t[b])
    {
      assert RowMajorBefore(ps[a], ps[b]);
    }
  }

  /** Both names of the step are registered. */
  predicate Resolved(names: set<string>, s: Step)
  {
    s.src in names && s.dst in names
  }

  function Wirings(steps: seq<Step>): (regs: seq<Registration>)
    ensures |regs| == |steps|
  {
    seq(|steps|, k requires 0 <= k < |steps| => Wiring(steps[k]))
  }

  /** Running the steps ends `Done` or reports a missing name. */
  lemma {:induction false} RunStepsEnds(names: set<string>, steps: seq<Step>)
    ensures RunSteps(names, steps).1 == Done || RunSteps(names, steps).1.reason.Missing?
    decreases |steps|
  {
    if steps != [] {
      RunStepsEnds(names, steps[1..]);
    }
  }

  /** Running the steps ends `Done` exactly when every step resolves, and then registers one connection per step, in order. */
  lemma {:induction false} RunStepsDone(names: set<string>, steps: seq<Step>)
    ensures RunSteps(names, steps).1 == Done <==> forall s :: s in steps ==> Resolved(names, s)
    ensures RunSteps(names, steps).1 == Done ==> RunSteps(names, steps).0 == Wirings(steps)
    decreases |steps|
  {
    if steps != [] {
      var s, rest := steps[0], steps[1..];
      RunStepsDone(names, rest);
      assert forall x :: x in steps <==> x == s || x in rest;
      if Resolved(names, s) && RunSteps(names, rest).1 == Done {
        assert RunSteps(names, steps).0 == [Wiring(s)] + Wirings(rest);
      }
    }
  }

  /** The position of the first step with a missing name, or `|steps|` if there is none. */
  function FirstUnresolved(names: set<string>, steps: seq<Step>): (k: nat)
    ensures k <= |steps|
    ensures forall m :: 0 <= m < k ==> Resolved(names, steps[m])
    ensures k < |steps| ==> !Resolved(names, steps[k])
  {
    if steps == [] then 0
    else if !Resolved(names, steps[0]) then 0
    else 1 + FirstUnresolved(names, steps[1..])
  }

  /**
   * A run that fails stops at the first step with a missing name: the steps before it are
   * registered, and the name reported is the step's source if that is missing, else its target.
   */
  lemma {:induction false} RunStepsStops(names: set<string>, steps: seq<Step>)
    ensures var k := FirstUnresolved(names, steps);
            RunSteps(names, steps).1.Failed? <==> k < |steps|
    ensures var k := FirstUnresolved(names, steps);
            k < |steps| ==>
              RunSteps(names, steps).0 == Wirings(steps[..k])
              && RunSteps(names, steps).1 == Failed(Missing(if steps[k].src !in names then steps[k].src else steps[k].dst))
    decreases |steps|
  {
    if steps != [] && Resolved(names, steps[0]) {
      var s, rest := steps[0], steps[1..];
      RunStepsStops(names, rest);
      var k := FirstUnresolved(names, rest);
      if k < |rest| {
        assert steps[k + 1] == rest[k];
        assert steps[..k + 1] == [s] + rest[..k];
        assert Wirings(steps[..k + 1]) == [Wiring(s)] + Wirings(rest[..k]);
      }
    }
  }

  lemma {:induction false} RunStepsEmitted(names: set<string>, steps: seq<Step>)
    ensures forall x :: x in RunSteps(names, steps).0 ==> exists s :: s in steps && x == Wiring(s)
    decreases |steps|
  {
    if steps != [] {
      RunStepsEmitted(names, steps[1..]);
      forall x | x in RunSteps(names, steps).0 ensures exists s :: s in steps && x == Wiring(s) {
        if x != Wiring(steps[0]) {
          var s :| s in steps[1..] && x == Wiring(s);
          assert s in steps;
        }
      }
    }
  }

  /**
   * `connect` stops on its two assertions before registering anything: the areas must share one
   * network, and `W` must have one row per unit of area 1 and one column per unit of area 2.
   */
  lemma ConnectChecks(r: Registry, a1: AreaRef, a2: AreaRef, sameNet: bool, w: seq<seq<int>>,
                      wExciPE: int, wExciIR: int, onlyNPE: bool, onlyPPE: bool)
    ensures ConnectPlan(r, a1, a2, sameNet, w, wExciPE, wExciIR, onlyNPE, onlyPPE).1 == Failed(NetMismatch)
            <==> !sameNet
    ensures ConnectPlan(r, a1, a2, sameNet, w, wExciPE, wExciIR, onlyNPE, onlyPPE).1 == Failed(ShapeMismatch)
            <==> sameNet && !HasShape(w, a1.n, a2.n)
    ensures !sameNet || !HasShape(w, a1.n, a2.n) ==>
              ConnectPlan(r, a1, a2, sameNet, w, wExciPE, wExciIR, onlyNPE, onlyPPE).0 == []
  {
    var (s, t) := NonZero(w);
    RunStepsEnds(NamesOf(r), ConnectSteps(a1, a2, s, t, wExciPE, wExciIR, onlyNPE, onlyPPE));
  }

  /**
   * The forward connections leave IR of area 1 over the nonzero (row, column) pairs of `W`;
   * the backward ones enter IR or the IR interneurons of area 1 over the swapped lists, and
   * there are none onto a Poisson input. None has a delay.
   */
  lemma ConnectPatterns(r: Registry, a1: AreaRef, a2: AreaRef, sameNet: bool, w: seq<seq<int>>,
                        wExciPE: int, wExciIR: int, onlyNPE: bool, onlyPPE: bool)
    ensures forall x :: x in ConnectPlan(r, a1, a2, sameNet, w, wExciPE, wExciIR, onlyNPE, onlyPPE).0 ==>
              x.entry.Connection? && x.entry.delay == None
              && ((x.entry.src == Member(a1.name, IR) && x.entry.pattern == Pairs(NonZero(w).0, NonZero(w).1))
                  || (!a1.irPoisson
                      && (x.entry.dst == Member(a1.name, InterIR) || x.entry.dst == Member(a1.name, IR))
                      && x.entry.pattern == Pairs(NonZero(w).1, NonZero(w).0)))
  {
    var (s, t) := NonZero(w);
    var steps := ConnectSteps(a1, a2, s, t, wExciPE, wExciIR, onlyNPE, onlyPPE);
    RunStepsEmitted(NamesOf(r), steps);
  }

  /** The names `connect` looks up, given which of its four connections it makes. */
  predicate ConnectNamesPresent(names: set<string>, a1: AreaRef, a2: AreaRef, onlyNPE: bool, onlyPPE: bool)
  {
    var ir1, iir1 := Member(a1.name, IR), Member(a1.name, InterIR);
    var ppe2, npe2, inpe2 := Member(a2.name, PPE), Member(a2.name, NPE), Member(a2.name, InterNPE);
    && (!onlyNPE ==> ir1 in names && ppe2 in names)
    && (!onlyPPE ==> ir1 in names && inpe2 in names)
    && (!a1.irPoisson && !onlyNPE ==> iir1 in names)
    && (!a1.irPoisson && !onlyPPE ==> npe2 in names)
  }

  /**
   * Past its assertions, `connect` completes exactly when every name it looks up is registered,
   * and then it registers one connection per enabled direction and population: two forward
   * connections at most, and as many backward ones unless area 1 is a Poisson input.
   */
  lemma ConnectCompletes(r: Registry, a1: AreaRef, a2: AreaRef, w: seq<seq<int>>,
                         wExciPE: int, wExciIR: int, onlyNPE: bool, onlyPPE: bool)
    requires HasShape(w, a1.n, a2.n)
    ensures ConnectPlan(r, a1, a2, true, w, wExciPE, wExciIR, onlyNPE, onlyPPE).1 == Done
            <==> ConnectNamesPresent(NamesOf(r), a1, a2, onlyNPE, onlyPPE)
    ensures ConnectPlan(r, a1, a2, true, w, wExciPE, wExciIR, onlyNPE, onlyPPE).1 == Done ==>
              |ConnectPlan(r, a1, a2, true, w, wExciPE, wExciIR, onlyNPE, onlyPPE).0|
              == (if a1.irPoisson then 1 else 2) * ((if onlyNPE then 0 else 1) + (if onlyPPE then 0 else 1))
  {
    var (s, t) := NonZero(w);
    var steps := ConnectSteps(a1, a2, s, t, wExciPE, wExciIR, onlyNPE, onlyPPE);
    var ir1 := Member(a1.name, IR);
    var toPPE := Step(ir1, Member(a2.name, PPE), Pairs(s, t), wExciPE);
    var toInterNPE := Step(ir1, Member(a2.name, InterNPE), Pairs(s, t), Drive);
    var fromPPE := Step(Member(a2.name, PPE), Member(a1.name, InterIR), Pairs(t, s), Drive);
    var fromNPE := Step(Member(a2.name, NPE), ir1, Pairs(t, s), wExciIR);
    assert forall x :: x in steps <==>
      (!onlyNPE && x == toPPE) || (!onlyPPE && x == toInterNPE)
      || (!a1.irPoisson && !onlyNPE && x == fromPPE) || (!a1.irPoisson && !onlyPPE && x == fromNPE);
    RunStepsDone(NamesOf(r), steps);
    if RunSteps(NamesOf(r), steps).1 == Done {
      assert !onlyNPE ==> Resolved(NamesOf(r), toPPE) by { assert !onlyNPE ==> toPPE in steps; }
      assert !onlyPPE ==> Resolved(NamesOf(r), toInterNPE) by { assert !onlyPPE ==> toInterNPE in steps; }
      assert !a1.irPoisson && !onlyNPE ==> Resolved(NamesOf(r), fromPPE)
        by { assert !a1.irPoisson && !onlyNPE ==> fromPPE in steps; }
      assert !a1.irPoisson && !onlyPPE ==> Resolved(NamesOf(r), fromNPE)
        by { assert !a1.irPoisson && !onlyPPE ==> fromNPE in steps; }
    }
  }

  lemma WiringsHave(steps: seq<Step>, s: Step)
    requires s in steps
    ensures Wiring(s) in Wirings(steps)
  {
    var k :| 0 <= k < |steps| && steps[k] == s;
    assert Wirings(steps)[k] == Wiring(s);
  }

  /**
   * A completed `connect` registers, over the nonzero pairs of `W`: IR of area 1 to PPE of area 2
   * with `wEXCIPE` unless only NPE, IR to the NPE interneurons with 35 unless only PPE, and,
   * unless area 1 is a Poisson input, PPE back to the IR interneurons with 35 and NPE back to IR
   * with `wEXCIIR` over the swapped lists.
   */
  lemma ConnectRegisters(r: Registry, a1: AreaRef, a2: AreaRef, w: seq<seq<int>>,
                         wExciPE: int, wExciIR: int, onlyNPE: bool, onlyPPE: bool)
    requires HasShape(w, a1.n, a2.n)
    requires ConnectPlan(r, a1, a2, true, w, wExciPE, wExciIR, onlyNPE, onlyPPE).1 == Done
    ensures var regs := ConnectPlan(r, a1, a2, true, w, wExciPE, wExciIR, onlyNPE, onlyPPE).0;
            var (s, t) := NonZero(w);
            && (!onlyNPE ==> Conn(Member(a1.name, IR), Member(a2.name, PPE), Pairs(s, t), wExciPE, None, "", false) in regs)
            && (!onlyPPE ==> Conn(Member(a1.name, IR), Member(a2.name, InterNPE), Pairs(s, t), Drive, None, "", false) in regs)
            && (!a1.irPoisson && !onlyNPE ==>
                  Conn(Member(a2.name, PPE), Member(a1.name, InterIR), Pairs(t, s), Drive, None, "", false) in regs)
            && (!a1.irPoisson && !onlyPPE ==>
                  Conn(Member(a2.name, NPE), Member(a1.name, IR), Pairs(t, s), wExciIR, None, "", false) in regs)
  {
    var (s, t) := NonZero(w);
    var steps := ConnectSteps(a1, a2, s, t, wExciPE, wExciIR, onlyNPE, onlyPPE);
    var ir1 := Member(a1.name, IR);
    RunStepsDone(NamesOf(r), steps);
    if !onlyNPE {
      WiringsHave(steps, Step(ir1, Member(a2.name, PPE), Pairs(s, t), wExciPE));
    }
    if !onlyPPE {
      WiringsHave(steps, Step(ir1, Member(a2.name, InterNPE), Pairs(s, t), Drive));
    }
    if !a1.irPoisson && !onlyNPE {
      WiringsHave(steps, Step(Member(a2.name, PPE), Member(a1.name, InterIR), Pairs(t, s), Drive));
    }
    if !a1.irPoisson && !onlyPPE {
      WiringsHave(steps, Step(Member(a2.name, NPE), ir1, Pairs(t, s), wExciIR));
    }
  }

  /**
   * Connecting from an area whose IR is a spike generator (not Poisson) with the PPE direction
   * on: the backward step looks up the IR interneurons of area 1, which such an area never
   * registers, so `connect` stops there, after its forward connections.
   */
  lemma ConnectFromSpikeSetFails(r: Registry, a1: AreaRef, a2: AreaRef, w: seq<seq<int>>,
                                 wExciPE: int, wExciIR: int, onlyPPE: bool)
    requires HasShape(w, a1.n, a2.n) && !a1.irPoisson
    requires Member(a1.name, IR) in NamesOf(r) && Member(a2.name, PPE) in NamesOf(r)
    requires !onlyPPE ==> Member(a2.name, InterNPE) in NamesOf(r)
    requires Member(a1.name, InterIR) !in NamesOf(r)
    ensures ConnectPlan(r, a1, a2, true, w, wExciPE, wExciIR, false, onlyPPE).1
            == Failed(Missing(Member(a1.name, InterIR)))
    ensures |ConnectPlan(r, a1, a2, true, w, wExciPE, wExciIR, false, onlyPPE).0| == if onlyPPE then 1 else 2
  {
    var (s, t) := NonZero(w);
    var steps := ConnectSteps(a1, a2, s, t, wExciPE, wExciIR, false, onlyPPE);
    var k := if onlyPPE then 1 else 2;
    assert steps[k] == Step(Member(a2.name, PPE), Member(a1.name, InterIR), Pairs(t, s), Drive);
    assert FirstUnresolved(NamesOf(r), steps) == k by {
      assert FirstUnresolved(NamesOf(r), steps[k..]) == 0;
      if !onlyPPE {
        assert steps[1..][1..] == steps[2..];
      }
    }
    RunStepsStops(NamesOf(r), steps);
  }

  /**
   * An area whose IR is a Poisson or spike-set input registers no IR interneurons, so the name
   * `area_interIR` stays unregistered unless something else registered it before.
   */
  lemma NoInterIRUnlessModelIR(c: Config, r: Registry)
    requires Named(Member(c.name, InterIR)) !in r.entries
    ensures Named(Member(c.name, InterIR)) in AddAll(r, Plan(c)).entries <==> ModelIR(c)
  {
    var k := Named(Member(c.name, InterIR));
    AreaRegistrations(c, r, k);
    InterIRNameApart(c.name);
    if ModelIR(c) {
      assert Planned(c, Pop(Member(c.name, InterIR), Neurons(Interneuron), c.n));
    }
  }

  /** The only planned registration under the IR recorder's name is the spike recorder. */
  lemma IRRecorderPlannedOnce(c: Config, x: Registration)
    requires Planned(c, x) && x.key == Named(RecorderName(c.name, IR))
    ensures x == Mon(RecorderName(c.name, IR), Member(c.name, IR), SpikeTimes)
  {
    IRRecorderNameApart(c.name);
  }

  /**
   * With spike recording on, `area['IR']` after the constructor is the IR spike recorder, provided
   * its name was free: the constructor registers nothing else under that name.
   */
  lemma IRRecorderAfterConstruction(c: Config, r: Registry)
    requires c.recordSpikes && Named(RecorderName(c.name, IR)) !in r.entries
    ensures Lookup(AddAll(r, Plan(c)), RecorderName(c.name, IR)) == Some(Monitor(Member(c.name, IR), SpikeTimes))
  {
    var mon := Mon(RecorderName(c.name, IR), Member(c.name, IR), SpikeTimes);
    PlanMembership(c);
    forall x | x in Plan(c) && x.key == mon.key
      ensures x == mon
    {
      IRRecorderPlannedOnce(c, x);
    }
    SoleRegistrationWins(r, Plan(c), mon);
  }

  /**
   * A successful `record_variable(pop, name)` followed by `area[name]`: the item is the new `vm`
   * recorder on `area_pop` when the recorder name was free, and whatever held the name before
   * otherwise.
   */
  lemma RecordingThenItem(r: Registry, area: string, pop: string, recorder: string)
    ensures Lookup(Register(r, Recording(area, pop, recorder)), RecorderName(area, recorder))
            == if Named(RecorderName(area, recorder)) in r.entries then Lookup(r, RecorderName(area, recorder))
               else Some(Monitor(Member(area, pop), StateTrace("vm")))
  {
  }
}
